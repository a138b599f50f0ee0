/** Agent Core at the token level (core/parser.py, core/ir.py): operands, predicates and instruction heads,
    parsed and printed. Digits are ASCII digits. */
module Tokens {
  import opened Common
  import opened Decimal
  import opened Ir

  const NUM_REGISTERS := 16

  // ---------------------------------------------------------------- symbols

  predicate Symbol(letters: string, tok: string) {
    |tok| > 1 && tok[0] in letters && AllDigits(tok[1..])
  }

  predicate IsField(tok: string) {
    Symbol("F", tok)
  }

  predicate IsConstant(tok: string) {
    Symbol("CSNBDI", tok)
  }

  predicate IsTool(tok: string) {
    Symbol("T", tok)
  }

  /** A register: `r` and one or two digits, below the register limit. */
  function ParseReg(tok: string): Option<nat> {
    if 2 <= |tok| <= 3 && tok[0] == 'r' && AllDigits(tok[1..]) &&
        Read(tok[1..]) < NUM_REGISTERS then Some(Read(tok[1..])) else None
  }

  function RegText(n: nat): string {
    "r" + Show(n)
  }

  lemma ShortNumeral(n: nat)
    requires n < 100
    ensures 1 <= |Show(n)| <= 2
  {
    assert n / 10 < 10;
  }

  lemma RegRoundTrip(n: nat)
    requires n < NUM_REGISTERS
    ensures ParseReg(RegText(n)) == Some(n)
  {
    ShortNumeral(n);
    ReadShow(n);
    assert RegText(n)[1..] == Show(n);
  }

  lemma ParsedRegBelow(tok: string)
    ensures ParseReg(tok).Some? ==> ParseReg(tok).value < NUM_REGISTERS
  {
  }

  // ---------------------------------------------------------------- operands

  /** The index of the first dot, or |tok|. */
  function Dot(tok: string): (i: nat)
    ensures i <= |tok|
    ensures i < |tok| ==> tok[i] == '.'
    ensures forall j | 0 <= j < i :: tok[j] != '.'
  {
    if tok == "" || tok[0] == '.' then 0 else 1 + Dot(tok[1..])
  }

  /** `_operand`. */
  function ParseOperand(tok: string): Option<Operand> {
    var d := Dot(tok);
    if d < |tok| && IsField(tok[d + 1..]) && ParseReg(tok[..d]).Some?
        then Some(ORegField(ParseReg(tok[..d]).value, tok[d + 1..]))
    else if ParseReg(tok).Some? then Some(OReg(ParseReg(tok).value))
    else if IsConstant(tok) then Some(OConst(tok))
    else if tok == "NOW" then Some(ONow)
    else if tok == "NULL" then Some(ONull)
    else if tok != "" && AllDigits(tok) then Some(OInt(Read(tok)))
    else None
  }

  function OperandText(op: Operand): string {
    match op
    case OReg(n) => RegText(n)
    case ORegField(n, f) => RegText(n) + "." + f
    case OConst(sym) => sym
    case ONow => "NOW"
    case ONull => "NULL"
    case OInt(v) => Show(v)
  }

  /** What the parser can build. */
  predicate OperandOk(op: Operand) {
    match op
    case OReg(n) => n < NUM_REGISTERS
    case ORegField(n, f) => n < NUM_REGISTERS && IsField(f)
    case OConst(sym) => IsConstant(sym)
    case _ => true
  }

  lemma {:induction false} NoDot(tok: string)
    requires forall j | 0 <= j < |tok| :: tok[j] != '.'
    ensures Dot(tok) == |tok|
    decreases tok
  {
    if tok != "" { NoDot(tok[1..]); }
  }

  lemma {:induction false} DotAt(a: string, b: string)
    requires forall j | 0 <= j < |a| :: a[j] != '.'
    ensures Dot(a + "." + b) == |a|
    decreases a
  {
    if a == "" {
      assert (a + "." + b)[0] == '.';
    } else {
      assert (a + "." + b)[1..] == a[1..] + "." + b;
      DotAt(a[1..], b);
    }
  }

  lemma OperandRoundTrip(op: Operand)
    requires OperandOk(op)
    ensures ParseOperand(OperandText(op)) == Some(op)
  {
    hide Dot;
    hide Read;
    hide Show;
    var t := OperandText(op);
    match op
    case OReg(n) =>
      NoDot(t);
      RegRoundTrip(n);
    case ORegField(n, f) =>
      DotAt(RegText(n), f);
      RegRoundTrip(n);
      assert t[..|RegText(n)|] == RegText(n) && t[|RegText(n)| + 1..] == f;
    case OConst(sym) => NoDot(sym);
    case ONow =>
      NoDot("NOW");
      assert "NOW"[1..][0] == 'O';
    case ONull =>
      NoDot("NULL");
      assert "NULL"[1..][0] == 'U';
    case OInt(v) =>
      NoDot(t);
      ReadShow(v);
      assert IsDigit(t[0]);
  }

  lemma ParsedOperandOk(tok: string)
    ensures ParseOperand(tok).Some? ==> OperandOk(ParseOperand(tok).value)
  {
    hide Read;
    ParsedRegBelow(tok);
    ParsedRegBelow(tok[..Dot(tok)]);
  }

  function ParseOperands(toks: seq<string>): Option<seq<Operand>>
    decreases toks
  {
    if toks == [] then Some([])
    else
      match ParseOperand(toks[0])
      case None => None
      case Some(op) =>
        match ParseOperands(toks[1..])
        case None => None
        case Some(ops) => Some([op] + ops)
  }

  function OperandTexts(ops: seq<Operand>): seq<string> {
    seq(|ops|, i requires 0 <= i < |ops| => OperandText(ops[i]))
  }

  predicate OperandsOk(ops: seq<Operand>) {
    forall i | 0 <= i < |ops| :: OperandOk(ops[i])
  }

  lemma {:induction false} OperandsRoundTrip(ops: seq<Operand>)
    requires OperandsOk(ops)
    ensures ParseOperands(OperandTexts(ops)) == Some(ops)
    decreases ops
  {
    hide ParseOperand;
    hide OperandText;
    hide OperandOk;
    if ops != [] {
      OperandRoundTrip(ops[0]);
      OperandsRoundTrip(ops[1..]);
      assert OperandTexts(ops)[1..] == OperandTexts(ops[1..]);
      assert ops == [ops[0]] + ops[1..];
    }
  }

  lemma {:induction false} ParsedOperandsOk(toks: seq<string>)
    ensures ParseOperands(toks).Some? ==> OperandsOk(ParseOperands(toks).value)
    decreases toks
  {
    hide ParseOperand;
    hide OperandOk;
    if toks != [] {
      ParsedOperandOk(toks[0]);
      ParsedOperandsOk(toks[1..]);
    }
  }

  // ---------------------------------------------------------------- predicates

  function CmpText(c: Cmp): string {
    match c
    case EQ => "EQ"
    case LT => "LT"
    case GT => "GT"
    case CONTAINS => "CONTAINS"
    case IN => "IN"
    case EMPTY => "EMPTY"
  }

  /** The binary comparators. */
  function ParseCmp(tok: string): Option<Cmp> {
    if tok == "EQ" then Some(EQ) else if tok == "LT" then Some(LT) else if tok == "GT" then Some(GT)
    else if tok == "CONTAINS" then Some(CONTAINS) else if tok == "IN" then Some(IN) else None
  }

  function ConnectiveText(c: Connective): string {
    match c case AND => "AND" case OR => "OR"
  }

  function ParseConnective(tok: string): Option<Connective> {
    if tok == "AND" then Some(AND) else if tok == "OR" then Some(OR) else None
  }

  datatype Cut<T> = Cut(value: T, rest: seq<string>)

  function ParseLeft(tok: string, fieldLeft: bool): Option<Left> {
    if fieldLeft then (if IsField(tok) then Some(LField(tok)) else None)
    else match ParseOperand(tok) case None => None case Some(op) => Some(LOp(op))
  }

  function ParseRight(tok: string, fieldLeft: bool): Option<Right> {
    if fieldLeft && IsField(tok) then Some(RElem(tok))
    else match ParseOperand(tok) case None => None case Some(op) => Some(ROp(op))
  }

  /** One clause of `_parse_pred`, and what follows it. */
  function ParseClause(toks: seq<string>, fieldLeft: bool): Option<Cut<Clause>> {
    var neg := toks != [] && toks[0] == "NOT";
    var ts := if neg then toks[1..] else toks;
    if ts == [] then None
    else if !fieldLeft && ts[0] == "EMPTY" then
      if |ts| < 2 || ParseReg(ts[1]).None? then None
      else Some(Cut(Clause(neg, LOp(OReg(ParseReg(ts[1]).value)), EMPTY, RNone), ts[2..]))
    else if |ts| < 3 || ParseLeft(ts[0], fieldLeft).None? || ParseCmp(ts[1]).None? ||
        ParseRight(ts[2], fieldLeft).None? then None
    else Some(Cut(Clause(neg, ParseLeft(ts[0], fieldLeft).value, ParseCmp(ts[1]).value,
                         ParseRight(ts[2], fieldLeft).value), ts[3..]))
  }

  lemma ParsedClause(toks: seq<string>, fieldLeft: bool)
    ensures var c := ParseClause(toks, fieldLeft);
            c.Some? ==> |c.value.rest| < |toks| && ClauseComplete(c.value.value) && ClauseOk(c.value.value, fieldLeft)
  {
    hide ParseOperand;
    hide ParseReg;
    hide IsField;
    hide OperandOk;
    var neg := toks != [] && toks[0] == "NOT";
    var ts := if neg then toks[1..] else toks;
    if |ts| >= 1 { ParsedOperandOk(ts[0]); }
    if |ts| >= 2 { ParsedRegOk(ts[1]); }
    if |ts| >= 3 { ParsedOperandOk(ts[2]); }
  }

  lemma ParsedRegOk(tok: string)
    ensures ParseReg(tok).Some? ==> OperandOk(OReg(ParseReg(tok).value))
  {
  }

  /** `_parse_pred`'s loop from the start of a clause. */
  function ParseClauses(toks: seq<string>, fieldLeft: bool): Option<FlatPred>
    decreases |toks|
  {
    ParsedClause(toks, fieldLeft);
    match ParseClause(toks, fieldLeft)
    case None => None
    case Some(Cut(c, rest)) =>
      if rest == [] then Some(FlatPred([c], []))
      else if ParseConnective(rest[0]).None? then None
      else
        match ParseClauses(rest[1..], fieldLeft)
        case None => None
        case Some(p) => Some(FlatPred([c] + p.clauses, [ParseConnective(rest[0]).value] + p.ops))
  }

  predicate PredOk(p: FlatPred, fieldLeft: bool) {
    && |p.clauses| == |p.ops| + 1 && AllComplete(p.clauses)
    && forall i | 0 <= i < |p.clauses| :: ClauseOk(p.clauses[i], fieldLeft)
  }

  /** What each mode can hold: FILTER compares a field of the element, IF compares operands or asks EMPTY of a
      register. */
  predicate ClauseOk(c: Clause, fieldLeft: bool) {
    if fieldLeft then
      && !c.cmp.EMPTY? && c.left.LField? && IsField(c.left.field)
      && (c.right.RElem? ==> IsField(c.right.field)) && (c.right.ROp? ==> OperandOk(c.right.op))
    else
      && c.left.LOp? && OperandOk(c.left.op) && !c.right.RElem?
      && (c.cmp.EMPTY? ==> c.left.op.OReg?) && (c.right.ROp? ==> OperandOk(c.right.op))
  }

  lemma {:induction false} ParsedPredOk(toks: seq<string>, fieldLeft: bool)
    ensures var p := ParseClauses(toks, fieldLeft); p.Some? ==> PredOk(p.value, fieldLeft)
    decreases |toks|
  {
    hide ParseClause;
    hide ClauseOk;
    hide ClauseComplete;
    ParsedClause(toks, fieldLeft);
    match ParseClause(toks, fieldLeft)
    case None =>
    case Some(Cut(c, rest)) =>
      if rest != [] { ParsedPredOk(rest[1..], fieldLeft); }
  }

  function LeftText(l: Left): string {
    match l case LField(f) => f case LOp(op) => OperandText(op)
  }

  function RightText(r: Right): string {
    match r case RElem(f) => f case ROp(op) => OperandText(op) case RNone => "None"
  }

  /** The words of `str(clause)`. */
  function ClauseWords(c: Clause): seq<string> {
    (if c.neg then ["NOT"] else []) +
    (if c.cmp.EMPTY? then ["EMPTY", LeftText(c.left)] else [LeftText(c.left), CmpText(c.cmp), RightText(c.right)])
  }

  /** The words of `str(pred)`. */
  function PredWords(clauses: seq<Clause>, ops: seq<Connective>): seq<string>
    requires |clauses| == |ops| + 1
  {
    if ops == [] then ClauseWords(clauses[0])
    else ClauseWords(clauses[0]) + [ConnectiveText(ops[0])] + PredWords(clauses[1..], ops[1..])
  }

  lemma CmpRoundTrip(c: Cmp)
    requires !c.EMPTY?
    ensures ParseCmp(CmpText(c)) == Some(c)
  {
  }

  lemma ConnectiveRoundTrip(c: Connective)
    ensures ParseConnective(ConnectiveText(c)) == Some(c)
  {
  }

  /** No operand is spelled like a word of the predicate syntax. */
  lemma OperandNotWord(op: Operand)
    requires OperandOk(op)
    ensures OperandText(op) != "NOT" && OperandText(op) != "EMPTY" && OperandText(op) != "->" &&
            !IsField(OperandText(op))
  {
    hide Read;
    var t := OperandText(op);
    match op
    case OReg(n) => assert t[0] == 'r';
    case ORegField(n, f) => assert t[0] == 'r';
    case OConst(sym) => assert sym[1..][0] == sym[1];
    case ONow =>
    case ONull =>
    case OInt(v) => assert IsDigit(t[0]);
  }

  lemma FieldNotWord(f: string)
    requires IsField(f)
    ensures f != "NOT" && f != "EMPTY"
  {
  }

  lemma {:induction false} ClauseRoundTrip(c: Clause, fieldLeft: bool, rest: seq<string>)
    requires ClauseComplete(c) && ClauseOk(c, fieldLeft)
    ensures ParseClause(ClauseWords(c) + rest, fieldLeft) == Some(Cut(c, rest))
  {
    hide ParseOperand;
    hide OperandText;
    hide OperandOk;
    hide ParseReg;
    hide IsField;
    hide ParseCmp;
    hide CmpText;
    var words := ClauseWords(c) + rest;
    var bare := if c.cmp.EMPTY? then ["EMPTY", LeftText(c.left)]
        else [LeftText(c.left), CmpText(c.cmp), RightText(c.right)];
    if c.left.LOp? { OperandNotWord(c.left.op); OperandRoundTrip(c.left.op); } else { FieldNotWord(c.left.field); }
    if c.right.ROp? { OperandNotWord(c.right.op); OperandRoundTrip(c.right.op); }
    assert bare[0] != "NOT" by { assert "EMPTY" != "NOT"; }
    if c.neg {
      assert words == ["NOT"] + (bare + rest);
      assert words[1..] == bare + rest;
    } else {
      assert words == bare + rest;
    }
    if c.cmp.EMPTY? {
      assert (bare + rest)[2..] == rest;
      RegOperand(c.left.op);
    } else {
      CmpRoundTrip(c.cmp);
      assert (bare + rest)[3..] == rest;
    }
  }

  lemma RegOperand(op: Operand)
    requires op.OReg? && OperandOk(op)
    ensures ParseReg(OperandText(op)) == Some(op.n)
  {
    RegRoundTrip(op.n);
  }

  /** A printed predicate parses back to itself, in FILTER and in IF mode. */
  lemma {:induction false} PredRoundTrip(clauses: seq<Clause>, ops: seq<Connective>, fieldLeft: bool)
    requires PredOk(FlatPred(clauses, ops), fieldLeft)
    ensures ParseClauses(PredWords(clauses, ops), fieldLeft) == Some(FlatPred(clauses, ops))
    decreases ops
  {
    hide ParseClause;
    hide ClauseWords;
    hide ClauseOk;
    hide ClauseComplete;
    hide ParseConnective;
    hide ConnectiveText;
    if ops == [] {
      ClauseRoundTrip(clauses[0], fieldLeft, []);
      assert ClauseWords(clauses[0]) + [] == ClauseWords(clauses[0]);
      assert clauses == [clauses[0]];
    } else {
      var more := [ConnectiveText(ops[0])] + PredWords(clauses[1..], ops[1..]);
      assert PredWords(clauses, ops) == ClauseWords(clauses[0]) + more;
      ClauseRoundTrip(clauses[0], fieldLeft, more);
      ConnectiveRoundTrip(ops[0]);
      assert more[1..] == PredWords(clauses[1..], ops[1..]);
      PredRoundTrip(clauses[1..], ops[1..], fieldLeft);
      assert clauses == [clauses[0]] + clauses[1..] && ops == [ops[0]] + ops[1..];
    }
  }

  // ---------------------------------------------------------------- words and text

  /** The words, joined by spaces. */
  function Spaced(words: seq<string>): string {
    if words == [] then "" else if |words| == 1 then words[0] else words[0] + " " + Spaced(words[1..])
  }

  /** The words between spaces. */
  function SplitSpaces(s: string, cur: string): seq<string>
    decreases s
  {
    if s == "" then [cur]
    else if s[0] == ' ' then [cur] + SplitSpaces(s[1..], "")
    else SplitSpaces(s[1..], cur + [s[0]])
  }

  predicate Word(w: string) {
    forall i | 0 <= i < |w| :: w[i] != ' '
  }

  lemma {:induction false} SplitWord(w: string, rest: string, cur: string)
    requires Word(w)
    ensures SplitSpaces(w + rest, cur) == SplitSpaces(rest, cur + w)
    decreases w
  {
    if w == "" {
      assert w + rest == rest && cur + w == cur;
    } else {
      assert (w + rest)[1..] == w[1..] + rest;
      SplitWord(w[1..], rest, cur + [w[0]]);
      assert cur + [w[0]] + w[1..] == cur + w;
    }
  }

  lemma {:induction false} SplitSpaced(words: seq<string>)
    requires words != [] && forall i | 0 <= i < |words| :: Word(words[i])
    ensures SplitSpaces(Spaced(words), "") == words
    decreases words
  {
    hide Word;
    var w := words[0];
    assert "" + w == w;
    if |words| == 1 {
      assert w + "" == w;
      SplitWord(w, "", "");
    } else {
      var rest := Spaced(words[1..]);
      assert Spaced(words) == w + (" " + rest);
      SplitWord(w, " " + rest, "");
      assert (" " + rest)[1..] == rest;
      SplitSpaced(words[1..]);
      assert words == [w] + words[1..];
    }
  }

  lemma OperandIsWord(op: Operand)
    requires OperandOk(op)
    ensures Word(OperandText(op))
  {
    hide Read;
    match op
    case ORegField(n, f) =>
      assert f == [f[0]] + f[1..];
    case OConst(sym) =>
      assert sym == [sym[0]] + sym[1..];
    case _ =>
  }

  lemma FieldIsWord(f: string)
    requires IsField(f)
    ensures Word(f)
  {
    assert f == [f[0]] + f[1..];
  }

  lemma ClauseWordsAreWords(c: Clause, fieldLeft: bool)
    requires ClauseComplete(c) && ClauseOk(c, fieldLeft)
    ensures forall i | 0 <= i < |ClauseWords(c)| :: Word(ClauseWords(c)[i])
  {
    hide OperandText;
    hide OperandOk;
    hide IsField;
    if c.left.LOp? { OperandIsWord(c.left.op); } else { FieldIsWord(c.left.field); }
    match c.right
    case ROp(op) => OperandIsWord(op);
    case RElem(f) => FieldIsWord(f);
    case RNone =>
  }

  lemma {:induction false} PredWordsAreWords(clauses: seq<Clause>, ops: seq<Connective>, fieldLeft: bool)
    requires PredOk(FlatPred(clauses, ops), fieldLeft)
    ensures PredWords(clauses, ops) != [] && forall i | 0 <= i < |PredWords(clauses, ops)| ::
            Word(PredWords(clauses, ops)[i])
    decreases ops
  {
    hide Word;
    hide ClauseOk;
    hide ClauseComplete;
    ClauseWordsAreWords(clauses[0], fieldLeft);
    hide ClauseWords;
    if ops != [] {
      PredWordsAreWords(clauses[1..], ops[1..], fieldLeft);
      assert Word(ConnectiveText(ops[0])) by { ConnectiveIsWord(ops[0]); }
    }
  }

  lemma ConnectiveIsWord(c: Connective)
    ensures Word(ConnectiveText(c))
  {
  }

  /** `str(clause)`. */
  function ClauseText(c: Clause): string {
    (if c.neg then "NOT " else "") +
    (if c.cmp.EMPTY? then "EMPTY " + LeftText(c.left)
     else LeftText(c.left) + " " + CmpText(c.cmp) + " " + RightText(c.right))
  }

  /** The parts `Pred.__str__` collects. */
  function PredParts(clauses: seq<Clause>, ops: seq<Connective>): seq<string>
    requires |clauses| == |ops| + 1
  {
    if ops == [] then [ClauseText(clauses[0])]
    else [ClauseText(clauses[0]), ConnectiveText(ops[0])] + PredParts(clauses[1..], ops[1..])
  }

  /** `str(pred)`. */
  function PredText(p: FlatPred): string
    requires |p.clauses| == |p.ops| + 1
  {
    Spaced(PredParts(p.clauses, p.ops))
  }

  lemma {:induction false} SpacedJoin(a: seq<string>, b: seq<string>)
    requires a != [] && b != []
    ensures Spaced(a + b) == Spaced(a) + " " + Spaced(b)
    decreases a
  {
    if |a| == 1 {
      assert (a + b)[1..] == b;
    } else {
      assert (a + b)[1..] == a[1..] + b;
      SpacedJoin(a[1..], b);
    }
  }

  lemma SpacedPair(a: string, b: string)
    ensures Spaced([a, b]) == a + " " + b
  {
    assert [a, b][1..] == [b];
  }

  lemma SpacedTriple(a: string, b: string, c: string)
    ensures Spaced([a, b, c]) == a + " " + b + " " + c
  {
    SpacedPair(b, c);
    assert [a, b, c][1..] == [b, c];
    assert a + " " + (b + " " + c) == a + " " + b + " " + c;
  }

  lemma ClauseTextIsWords(c: Clause)
    ensures Spaced(ClauseWords(c)) == ClauseText(c)
  {
    hide OperandText;
    var bare := if c.cmp.EMPTY? then ["EMPTY", LeftText(c.left)]
        else [LeftText(c.left), CmpText(c.cmp), RightText(c.right)];
    if c.cmp.EMPTY? {
      SpacedPair("EMPTY", LeftText(c.left));
    } else {
      SpacedTriple(LeftText(c.left), CmpText(c.cmp), RightText(c.right));
    }
    assert "EMPTY" + " " == "EMPTY " && "NOT" + " " == "NOT ";
    if c.neg { SpacedJoin(["NOT"], bare); } else { assert ClauseWords(c) == bare; }
  }

  lemma {:induction false} PartsAreWords(clauses: seq<Clause>, ops: seq<Connective>)
    requires |clauses| == |ops| + 1
    ensures Spaced(PredParts(clauses, ops)) == Spaced(PredWords(clauses, ops))
    decreases ops
  {
    hide ClauseText;
    hide ClauseWords;
    hide ConnectiveText;
    ClauseTextIsWords(clauses[0]);
    if ops != [] {
      var w, o := ClauseWords(clauses[0]), ConnectiveText(ops[0]);
      var parts, words := PredParts(clauses[1..], ops[1..]), PredWords(clauses[1..], ops[1..]);
      PartsAreWords(clauses[1..], ops[1..]);
      SomeWords(clauses[0]);
      WordsExist(clauses[1..], ops[1..]);
      assert PredWords(clauses, ops) == w + ([o] + words);
      SpacedJoin(w, [o] + words);
      SpacedJoin([o], words);
      assert PredParts(clauses, ops) == [ClauseText(clauses[0])] + ([o] + parts);
      SpacedJoin([ClauseText(clauses[0])], [o] + parts);
      SpacedJoin([o], parts);
    }
  }

  lemma SomeWords(c: Clause)
    ensures ClauseWords(c) != []
  {
  }

  lemma WordsExist(clauses: seq<Clause>, ops: seq<Connective>)
    requires |clauses| == |ops| + 1
    ensures PredWords(clauses, ops) != [] && PredParts(clauses, ops) != []
  {
    SomeWords(clauses[0]);
  }

  /** `str(pred)`, split on spaces, parses back to the predicate, in FILTER and in IF mode. */
  lemma PredTextRoundTrip(p: FlatPred, fieldLeft: bool)
    requires PredOk(p, fieldLeft)
    ensures ParseClauses(SplitSpaces(PredText(p), ""), fieldLeft) == Some(p)
  {
    hide PredWords;
    hide ParseClauses;
    PartsAreWords(p.clauses, p.ops);
    PredWordsAreWords(p.clauses, p.ops, fieldLeft);
    SplitSpaced(PredWords(p.clauses, p.ops));
    PredRoundTrip(p.clauses, p.ops, fieldLeft);
  }

  /** The loop of `_parse_pred` over an index. */
  method ParsePred(toks: seq<string>, fieldLeft: bool) returns (r: Option<FlatPred>)
    ensures r == ParseClauses(toks, fieldLeft)
  {
    hide ParseClause;
    hide ParseConnective;
    var clauses: seq<Clause>, ops: seq<Connective>, i := [], [], 0;
    assert toks[0..] == toks;
    JoinNothing(ParseClauses(toks, fieldLeft));
    while true
      invariant 0 <= i <= |toks| && |clauses| == |ops|
      invariant ParseClauses(toks, fieldLeft) == Joined(clauses, ops, ParseClauses(toks[i..], fieldLeft))
      decreases |toks| - i
    {
      var cut := ParseClause(toks[i..], fieldLeft);
      ParsedClause(toks[i..], fieldLeft);
      if cut.None? {
        return None;
      }
      var c, rest := cut.value.value, cut.value.rest;
      if rest == [] {
        assert ops + [] == ops;
        return Some(FlatPred(clauses + [c], ops));
      }
      var op := ParseConnective(rest[0]);
      if op.None? {
        return None;
      }
      var j := |toks| - |rest| + 1;
      assert toks[j..] == rest[1..] by { RestIsSuffix(toks[i..], fieldLeft); }
      JoinMore(clauses, ops, c, op.value, ParseClauses(rest[1..], fieldLeft));
      clauses := clauses + [c];
      ops := ops + [op.value];
      i := j;
    }
  }

  lemma RestIsSuffix(toks: seq<string>, fieldLeft: bool)
    ensures var c := ParseClause(toks, fieldLeft);
            c.Some? ==> |c.value.rest| < |toks| && c.value.rest == toks[|toks| - |c.value.rest|..]
  {
    hide ParseOperand;
    hide ParseReg;
    hide IsField;
  }

  function Joined(clauses: seq<Clause>, ops: seq<Connective>, p: Option<FlatPred>): Option<FlatPred> {
    match p case None => None case Some(FlatPred(cs, os)) => Some(FlatPred(clauses + cs, ops + os))
  }

  lemma JoinNothing(p: Option<FlatPred>)
    ensures Joined([], [], p) == p
  {
    if p.Some? { assert [] + p.value.clauses == p.value.clauses && [] + p.value.ops == p.value.ops; }
  }

  lemma JoinMore(clauses: seq<Clause>, ops: seq<Connective>, c: Clause, op: Connective, p: Option<FlatPred>)
    ensures p.Some? ==>
            Joined(clauses, ops, Some(FlatPred([c] + p.value.clauses, [op] + p.value.ops))) ==
            Joined(clauses + [c], ops + [op], p)
  {
    if p.Some? {
      assert clauses + ([c] + p.value.clauses) == (clauses + [c]) + p.value.clauses;
      assert ops + ([op] + p.value.ops) == (ops + [op]) + p.value.ops;
    }
  }
}
