/** The grammar-text matcher of harness/task_grammar.py (`accepts` and its helpers), and what it accepts of printed
    expressions: quoted characters, `|`, grouping and `?`. */
module Gbnf {
  import opened Common
  import opened Strings

  // ---------------------------------------------------------------- the matcher, as it reads text

  function Deeper(c: char, depth: int): int {
    if c == '(' then depth + 1 else if c == ')' then depth - 1 else depth
  }

  /** `_split_top` from some depth, with `cur` read so far: cut at `|` outside parentheses. */
  function Split(rest: string, depth: int, cur: string): seq<string>
    decreases rest
  {
    if rest == "" then [Strip(cur)]
    else
      var d := Deeper(rest[0], depth);
      if rest[0] == '|' && d == 0 then [Strip(cur)] + Split(rest[1..], d, "")
      else Split(rest[1..], d, cur + [rest[0]])
  }

  datatype Token = Quoted(body: string) | Group(body: string, opt: bool)

  /** The position after the matching parenthesis; None when the scan runs off the end. */
  function Close(s: string, j: nat, depth: nat): (n: Option<nat>)
    requires j <= |s|
    ensures n.Some? ==> j <= n.value <= |s| && (depth > 0 ==> j < n.value)
    decreases |s| - j
  {
    if depth == 0 then Some(j)
    else if j == |s| then None
    else Close(s, j + 1, Deeper(s[j], depth))
  }

  /** The next quote from `i` on, |s| when there is none. */
  function FindQuote(s: string, i: nat): (j: nat)
    requires i <= |s|
    ensures i <= j <= |s|
    decreases |s| - i
  {
    if i == |s| || s[i] == '"' then i else FindQuote(s, i + 1)
  }

  function Prepend(t: Token, rest: Option<seq<Token>>): Option<seq<Token>> {
    match rest case None => None case Some(ts) => Some([t] + ts)
  }

  /** `_tokens` from position `i` on; None where it raises. */
  function Tokens(s: string, i: nat): Option<seq<Token>>
    requires i <= |s|
    decreases |s| - i
  {
    if i == |s| then Some([])
    else if IsSpace(s[i]) then Tokens(s, i + 1)
    else if s[i] == '"' then
      var j := FindQuote(s, i + 1);
      if j == |s| then None else Prepend(Quoted(s[i + 1..j]), Tokens(s, j + 1))
    else if s[i] == '(' then
      match Close(s, i + 1, 1)
      case None => None
      case Some(j) =>
        var opt := j < |s| && s[j] == '?';
        Prepend(Group(s[i + 1..j - 1], opt), Tokens(s, if opt then j + 1 else j))
    else None
  }

  predicate Shorter(ts: seq<Token>, bound: nat) {
    forall i | 0 <= i < |ts| :: |ts[i].body| < bound
  }

  lemma {:induction false} TokensShorter(s: string, i: nat)
    requires i <= |s|
    ensures var ts := Tokens(s, i); ts.Some? ==> Shorter(ts.value, |s|)
    decreases |s| - i
  {
    hide Close;
    hide FindQuote;
    if i < |s| {
      if IsSpace(s[i]) {
        TokensShorter(s, i + 1);
      } else if s[i] == '"' {
        var j := FindQuote(s, i + 1);
        if j < |s| { TokensShorter(s, j + 1); }
      } else if s[i] == '(' && Close(s, i + 1, 1).Some? {
        var j := Close(s, i + 1, 1).value;
        TokensShorter(s, if j < |s| && s[j] == '?' then j + 1 else j);
      }
    }
  }

  predicate AllWithin(parts: seq<string>, bound: nat) {
    forall i | 0 <= i < |parts| :: |parts[i]| <= bound
  }

  lemma {:induction false} SplitShorter(rest: string, depth: int, cur: string, bound: nat)
    requires |cur| + |rest| <= bound
    ensures AllWithin(Split(rest, depth, cur), bound)
    decreases rest
  {
    if rest != "" {
      var d := Deeper(rest[0], depth);
      if rest[0] == '|' && d == 0 {
        SplitShorter(rest[1..], d, "", bound);
      } else {
        SplitShorter(rest[1..], d, cur + [rest[0]], bound);
      }
    }
  }

  predicate StartsWith(s: string, body: string, p: nat) {
    p + |body| <= |s| && s[p..p + |body|] == body
  }

  function Append(a: Option<seq<nat>>, b: Option<seq<nat>>): Option<seq<nat>> {
    if a.Some? && b.Some? then Some(a.value + b.value) else None
  }

  /** `_match_alt`: every position where a match from `pos` can end; None where it raises. */
  function MatchAlt(expr: string, s: string, pos: nat): Option<seq<nat>>
    decreases |expr|, 3, 0, 0
  {
    SplitShorter(expr, 0, "", |expr|);
    MatchParts(Split(expr, 0, ""), |expr|, s, pos)
  }

  function MatchParts(parts: seq<string>, bound: nat, s: string, pos: nat): Option<seq<nat>>
    requires AllWithin(parts, bound)
    decreases bound, 2, |parts|, 0
  {
    if parts == [] then Some([])
    else Append(MatchSeq(parts[0], s, pos), MatchParts(parts[1..], bound, s, pos))
  }

  function MatchSeq(part: string, s: string, pos: nat): Option<seq<nat>>
    decreases |part|, 1, 0, 0
  {
    TokensShorter(part, 0);
    match Tokens(part, 0)
    case None => None
    case Some(ts) => MatchTokens(ts, |part|, s, [pos])
  }

  function MatchTokens(ts: seq<Token>, bound: nat, s: string, positions: seq<nat>): Option<seq<nat>>
    requires Shorter(ts, bound)
    decreases bound, 0, |ts|, 0
  {
    if ts == [] then Some(positions)
    else
      match Advance(ts[0], bound, s, positions)
      case None => None
      case Some(next) => if next == [] then Some([]) else MatchTokens(ts[1..], bound, s, next)
  }

  function Advance(t: Token, bound: nat, s: string, positions: seq<nat>): Option<seq<nat>>
    requires |t.body| < bound
    decreases bound, 0, 0, |positions|
  {
    if positions == [] then Some([])
    else
      var p := positions[0];
      var here :=
        if t.Quoted? then Some(if StartsWith(s, t.body, p) then [p + |t.body|] else [])
        else Append(Some(if t.opt then [p] else []), MatchAlt(t.body, s, p));
      Append(here, Advance(t, bound, s, positions[1..]))
  }

  function Accepts(expr: string, s: string): Option<bool> {
    match MatchAlt(Strip(expr), s, 0)
    case None => None
    case Some(ends) => Some(|s| in ends)
  }

  // ---------------------------------------------------------------- the loops

  function StripAll(parts: seq<string>): seq<string> {
    seq(|parts|, i requires 0 <= i < |parts| => Strip(parts[i]))
  }

  method SplitTop(expr: string) returns (parts: seq<string>)
    ensures parts == Split(expr, 0, "")
  {
    var raw: seq<string>, depth, cur := [], 0, "";
    for i := 0 to |expr|
      invariant StripAll(raw) + Split(expr[i..], depth, cur) == Split(expr, 0, "")
    {
      hide Strip;
      var ch := expr[i];
      assert expr[i..][0] == ch && expr[i..][1..] == expr[i + 1..];
      if ch == '(' { depth := depth + 1; } else if ch == ')' { depth := depth - 1; }
      if ch == '|' && depth == 0 {
        assert StripAll(raw + [cur]) == StripAll(raw) + [Strip(cur)];
        raw := raw + [cur];
        cur := "";
      } else {
        cur := cur + [ch];
      }
    }
    assert expr[|expr|..] == "";
    assert StripAll(raw + [cur]) == StripAll(raw) + [Strip(cur)];
    parts := StripAll(raw + [cur]);
  }

  function Onto(out: seq<Token>, rest: Option<seq<Token>>): Option<seq<Token>> {
    match rest case None => None case Some(ts) => Some(out + ts)
  }

  lemma OntoEnds(out: seq<Token>, rest: Option<seq<Token>>)
    ensures Onto([], rest) == rest && Onto(out, Some([])) == Some(out)
  {
    if rest.Some? { assert [] + rest.value == rest.value; }
    assert out + [] == out;
  }

  lemma OntoPrepend(out: seq<Token>, t: Token, rest: Option<seq<Token>>)
    ensures Onto(out, Prepend(t, rest)) == Onto(out + [t], rest)
  {
    if rest.Some? { assert out + ([t] + rest.value) == (out + [t]) + rest.value; }
  }

  /** The scan for the matching parenthesis. */
  method SkipGroup(s: string, start: nat) returns (r: Option<nat>)
    requires start <= |s|
    ensures r == Close(s, start, 1)
  {
    var depth: nat, j := 1, start;
    while depth > 0
      invariant start <= j <= |s|
      invariant Close(s, j, depth) == Close(s, start, 1)
      decreases |s| - j
    {
      if j == |s| {
        return None;
      }
      if s[j] == '(' { depth := depth + 1; } else if s[j] == ')' { depth := depth - 1; }
      j := j + 1;
    }
    r := Some(j);
  }

  method TokenLoop(s: string) returns (r: Option<seq<Token>>)
    ensures r == Tokens(s, 0)
  {
    var out: seq<Token>, i := [], 0;
    OntoEnds(out, Tokens(s, 0));
    hide Close;
    while i < |s|
      invariant 0 <= i <= |s|
      invariant Onto(out, Tokens(s, i)) == Tokens(s, 0)
    {
      if IsSpace(s[i]) {
        i := i + 1;
      } else if s[i] == '"' {
        var j := FindQuote(s, i + 1);
        if j == |s| {
          return None;
        }
        OntoPrepend(out, Quoted(s[i + 1..j]), Tokens(s, j + 1));
        out := out + [Quoted(s[i + 1..j])];
        i := j + 1;
      } else if s[i] == '(' {
        var end := SkipGroup(s, i + 1);
        if end.None? {
          return None;
        }
        var j := end.value;
        var opt := j < |s| && s[j] == '?';
        var t := Group(s[i + 1..j - 1], opt);
        i := if opt then j + 1 else j;
        OntoPrepend(out, t, Tokens(s, i));
        out := out + [t];
      } else {
        return None;
      }
    }
    OntoEnds(out, Tokens(s, 0));
    r := Some(out);
  }

  method MatchAltLoop(expr: string, s: string, pos: nat) returns (r: Option<seq<nat>>)
    ensures r == MatchAlt(expr, s, pos)
    decreases |expr|, 1
  {
    hide Split;
    hide MatchSeq;
    var parts := SplitTop(expr);
    var ends: seq<nat> := [];
    assert parts[0..] == parts;
    SplitShorter(expr, 0, "", |expr|);
    AppendNothing(MatchParts(parts, |expr|, s, pos));
    for i := 0 to |parts|
      invariant Append(Some(ends), MatchParts(parts[i..], |expr|, s, pos)) == MatchAlt(expr, s, pos)
    {
      assert parts[i..][0] == parts[i] && parts[i..][1..] == parts[i + 1..];
      var more := MatchSeqLoop(parts[i], s, pos);
      if more.None? {
        return None;
      }
      AppendAssoc(ends, more.value, MatchParts(parts[i + 1..], |expr|, s, pos));
      ends := ends + more.value;
    }
    assert parts[|parts|..] == [];
    assert ends + [] == ends;
    r := Some(ends);
  }

  lemma AppendNothing(c: Option<seq<nat>>)
    ensures Append(Some([]), c) == c
  {
    if c.Some? { assert [] + c.value == c.value; }
  }

  lemma AppendAssoc(a: seq<nat>, b: seq<nat>, c: Option<seq<nat>>)
    ensures Append(Some(a), Append(Some(b), c)) == Append(Some(a + b), c)
  {
    if c.Some? { assert a + (b + c.value) == (a + b) + c.value; }
  }

  method MatchSeqLoop(part: string, s: string, pos: nat) returns (r: Option<seq<nat>>)
    ensures r == MatchSeq(part, s, pos)
    decreases |part|, 0
  {
    hide Tokens;
    hide MatchAlt;
    var toks := TokenLoop(part);
    if toks.None? {
      return None;
    }
    var ts := toks.value;
    TokensShorter(part, 0);
    var positions := [pos];
    for k := 0 to |ts|
      invariant MatchTokens(ts[k..], |part|, s, positions) == MatchSeq(part, s, pos)
    {
      assert ts[k..][0] == ts[k] && ts[k..][1..] == ts[k + 1..];
      var t := ts[k];
      var next: seq<nat> := [];
      assert positions[0..] == positions;
      AppendNothing(Advance(t, |part|, s, positions));
      for i := 0 to |positions|
        invariant Append(Some(next), Advance(t, |part|, s, positions[i..])) == Advance(t, |part|, s, positions)
      {
        var p := positions[i];
        assert positions[i..][0] == p && positions[i..][1..] == positions[i + 1..];
        var here: seq<nat>;
        if t.Quoted? {
          here := if StartsWith(s, t.body, p) then [p + |t.body|] else [];
        } else {
          var inner := MatchAltLoop(t.body, s, p);
          if inner.None? {
            return None;
          }
          here := (if t.opt then [p] else []) + inner.value;
        }
        AppendAssoc(next, here, Advance(t, |part|, s, positions[i + 1..]));
        next := next + here;
      }
      assert positions[|positions|..] == [];
      assert next + [] == next;
      positions := next;
      if positions == [] {
        return Some([]);
      }
    }
    assert ts[|ts|..] == [];
    r := Some(positions);
  }

  method AcceptsLoop(expr: string, s: string) returns (r: Option<bool>)
    ensures r == Accepts(expr, s)
  {
    var ends := MatchAltLoop(Strip(expr), s, 0);
    r := if ends.None? then None else Some(|s| in ends.value);
  }

  // ---------------------------------------------------------------- printed expressions

  /** One alternative: a quoted character, alone or followed by a group. */
  datatype Alt = Lit(c: char) | Then(c: char, inner: seq<Alt>, opt: bool)

  /** The characters the text matcher cannot hold inside quotes. */
  predicate Plain(c: char) {
    c != '"' && c != '(' && c != ')' && c != '|'
  }

  predicate Printable(alts: seq<Alt>)
    decreases alts
  {
    alts == [] || (PrintableAlt(alts[0]) && Printable(alts[1..]))
  }

  predicate PrintableAlt(a: Alt)
    decreases a
  {
    Plain(a.c) && (a.Then? ==> a.inner != [] && Printable(a.inner))
  }

  /** The alternatives, joined by bars. */
  function Join(texts: seq<string>): string {
    if texts == [] then ""
    else if |texts| == 1 then texts[0]
    else texts[0] + " | " + Join(texts[1..])
  }

  function Quote(c: char): string {
    ['"', c, '"']
  }

  function GroupText(c: char, inner: string, opt: bool): string {
    Quote(c) + " (" + inner + ")" + (if opt then "?" else "")
  }

  function PrintAlt(a: Alt): string
    decreases a, 0
  {
    match a
    case Lit(c) => Quote(c)
    case Then(c, inner, opt) => GroupText(c, Join(PrintEach(inner)), opt)
  }

  function PrintEach(alts: seq<Alt>): (texts: seq<string>)
    ensures |texts| == |alts|
    decreases alts, 1
  {
    if alts == [] then [] else [PrintAlt(alts[0])] + PrintEach(alts[1..])
  }

  function Print(alts: seq<Alt>): string {
    Join(PrintEach(alts))
  }

  lemma PrintMore(alts: seq<Alt>)
    requires |alts| > 1
    ensures Print(alts) == PrintAlt(alts[0]) + " | " + Print(alts[1..])
  {
    hide PrintAlt;
    assert PrintEach(alts)[1..] == PrintEach(alts[1..]);
  }

  lemma Regroup(a: string, b: string, c: string, d: string)
    ensures (a + b + c) + d == a + (b + (c + d))
    ensures |a + b + c| == |a| + |b| + |c|
  {
  }

  /** The words an expression means. */
  predicate Matches(alts: seq<Alt>, w: string)
    decreases alts
  {
    alts != [] && (MatchesAlt(alts[0], w) || Matches(alts[1..], w))
  }

  predicate MatchesAlt(a: Alt, w: string)
    decreases a
  {
    w != "" && w[0] == a.c &&
    match a
    case Lit(_) => |w| == 1
    case Then(_, inner, opt) => (opt && |w| == 1) || Matches(inner, w[1..])
  }

  // ---------------------------------------------------------------- splitting printed text

  lemma SplitChar(c: char, rest: string, d: int, cur: string)
    requires c != '|' || d != 0
    ensures Split([c] + rest, d, cur) == Split(rest, Deeper(c, d), cur + [c])
  {
    assert ([c] + rest)[1..] == rest;
  }

  lemma {:induction false} SplitPlain(t: string, rest: string, d: int, cur: string)
    requires forall i | 0 <= i < |t| :: t[i] != '(' && t[i] != ')' && (t[i] != '|' || d != 0)
    ensures Split(t + rest, d, cur) == Split(rest, d, cur + t)
    decreases t
  {
    hide Split;
    if t == "" {
      assert t + rest == rest && cur + t == cur;
    } else {
      assert t + rest == [t[0]] + (t[1..] + rest);
      SplitChar(t[0], t[1..] + rest, d, cur);
      SplitPlain(t[1..], rest, d, cur + [t[0]]);
      assert (cur + [t[0]]) + t[1..] == cur + t;
    }
  }

  /** Parenthesised text is skipped whole. */
  lemma SplitGroup(c: char, inner: string, opt: bool, rest: string, d: int, cur: string)
    requires Plain(c) && d >= 0
    requires forall more, cur' :: Split(inner + more, d + 1, cur') == Split(more, d + 1, cur' + inner)
    ensures Split(GroupText(c, inner, opt) + rest, d, cur) == Split(rest, d, cur + GroupText(c, inner, opt))
  {
    hide Split;
    var head := Quote(c) + " ";
    var tail := if opt then "?" else "";
    var t := GroupText(c, inner, opt);
    assert t + rest == head + (['('] + (inner + ([')'] + (tail + rest))));
    SplitPlain(head, ['('] + (inner + ([')'] + (tail + rest))), d, cur);
    SplitChar('(', inner + ([')'] + (tail + rest)), d, cur + head);
    SplitChar(')', tail + rest, d + 1, cur + head + ['('] + inner);
    SplitPlain(tail, rest, d, cur + head + ['('] + inner + [')']);
    assert cur + head + ['('] + inner + [')'] + tail == cur + t;
  }

  lemma {:induction false} SplitAlt(a: Alt, rest: string, d: int, cur: string)
    requires PrintableAlt(a) && d >= 0
    ensures Split(PrintAlt(a) + rest, d, cur) == Split(rest, d, cur + PrintAlt(a))
    decreases a, 0
  {
    hide Split;
    match a
    case Lit(c) => SplitPlain(Quote(c), rest, d, cur);
    case Then(c, inner, opt) =>
      forall more, cur'
        ensures Split(Print(inner) + more, d + 1, cur') == Split(more, d + 1, cur' + Print(inner))
      {
        SplitInside(inner, more, d + 1, cur');
      }
      SplitGroup(c, Print(inner), opt, rest, d, cur);
  }

  /** Inside parentheses no `|` cuts. */
  lemma {:induction false} SplitInside(alts: seq<Alt>, rest: string, d: int, cur: string)
    requires alts != [] && Printable(alts) && d >= 1
    ensures Split(Print(alts) + rest, d, cur) == Split(rest, d, cur + Print(alts))
    decreases alts, 1
  {
    hide Split;
    hide PrintAlt;
    var a := PrintAlt(alts[0]);
    if |alts| == 1 {
      assert Print(alts) == a;
      SplitAlt(alts[0], rest, d, cur);
    } else {
      PrintMore(alts);
      hide Print;
      var more := Print(alts[1..]);
      Regroup(a, " | ", more, rest);
      SplitAlt(alts[0], " | " + (more + rest), d, cur);
      SplitPlain(" | ", more + rest, d, cur + a);
      SplitInside(alts[1..], rest, d, cur + a + " | ");
      assert cur + a + " | " + more == cur + (a + " | " + more);
    }
  }

  lemma StripPadded(pad: string, t: string)
    requires t != "" && !IsSpace(t[0]) && !IsSpace(t[|t| - 1]) && (pad == "" || pad == " ")
    ensures Strip(pad + t) == t && Strip(pad + t + [' ']) == t
  {
    hide Strip;
    StripEdges(t);
    assert "" + t == t && t + [' '] == t + " " && " " + t + [' '] == " " + t + " ";
  }

  lemma BarText(a: string, more: string)
    ensures a + " | " + more == a + ([' '] + (['|'] + ([' '] + more)))
  {
  }

  lemma PrintEdges(a: Alt)
    requires PrintableAlt(a)
    ensures var t := PrintAlt(a); t != "" && !IsSpace(t[0]) && !IsSpace(t[|t| - 1])
  {
    hide Join;
    hide PrintEach;
    match a
    case Lit(c) =>
    case Then(c, inner, opt) =>
      var t := PrintAlt(a);
      assert t[0] == '"';
      assert t[|t| - 1] == if opt then '?' else ')';
  }

  lemma SplitCut(rest: string, cur: string)
    ensures Split(['|'] + rest, 0, cur) == [Strip(cur)] + Split(rest, 0, "")
  {
    assert (['|'] + rest)[1..] == rest;
  }

  lemma SplitEnd(cur: string)
    ensures Split("", 0, cur) == [Strip(cur)]
  {
  }

  /** Outside parentheses the printed alternatives come apart again. */
  lemma {:induction false} SplitPrint(alts: seq<Alt>, pad: string)
    requires alts != [] && Printable(alts) && (pad == "" || pad == " ")
    ensures Split(Print(alts), 0, pad) == PrintEach(alts)
    decreases alts
  {
    hide PrintAlt;
    hide Strip;
    hide Split;
    var a := PrintAlt(alts[0]);
    PrintEdges(alts[0]);
    StripPadded(pad, a);
    if |alts| == 1 {
      assert Print(alts) == a && a + "" == a;
      SplitAlt(alts[0], "", 0, pad);
      SplitEnd(pad + a);
    } else {
      PrintMore(alts);
      hide Print;
      var more := Print(alts[1..]);
      BarText(a, more);
      SplitAlt(alts[0], [' '] + (['|'] + ([' '] + more)), 0, pad);
      SplitChar(' ', ['|'] + ([' '] + more), 0, pad + a);
      SplitCut([' '] + more, pad + a + [' ']);
      SplitChar(' ', more, 0, "");
      assert "" + [' '] == " ";
      SplitPrint(alts[1..], " ");
    }
  }

  // ---------------------------------------------------------------- tokens of printed text

  /** The text `t` stands at position `j`. */
  predicate At(s: string, j: nat, t: string) {
    j + |t| <= |s| && forall k {:trigger t[k]} | 0 <= k < |t| :: s[j + k] == t[k]
  }

  lemma AtWhole(s: string)
    ensures At(s, 0, s)
  {
  }

  lemma AtSlice(s: string, j: nat, t: string)
    requires At(s, j, t)
    ensures s[j..j + |t|] == t
  {
  }

  lemma AtChar(s: string, j: nat, c: char)
    requires At(s, j, [c])
    ensures j < |s| && s[j] == c
  {
    assert [c][0] == c;
  }

  lemma AtSplit(s: string, j: nat, a: string, b: string)
    requires At(s, j, a + b)
    ensures At(s, j, a) && At(s, j + |a|, b)
  {
    var t := a + b;
    forall k | 0 <= k < |a|
      ensures s[j + k] == a[k]
    {
      assert t[k] == a[k];
    }
    forall k | 0 <= k < |b|
      ensures s[j + |a| + k] == b[k]
    {
      assert t[|a| + k] == b[k];
    }
  }

  lemma AtSplit3(s: string, j: nat, a: string, b: string, c: string)
    requires At(s, j, a + b + c)
    ensures At(s, j, a) && At(s, j + |a|, b) && At(s, j + |a| + |b|, c)
  {
    hide At;
    AtSplit(s, j, a + b, c);
    AtSplit(s, j, a, b);
  }

  lemma {:induction false} ClosePlain(s: string, j: nat, t: string, d: nat)
    requires At(s, j, t) && d > 0 && forall i | 0 <= i < |t| :: t[i] != '(' && t[i] != ')'
    ensures Close(s, j, d) == Close(s, j + |t|, d)
    decreases t
  {
    if t != "" {
      assert t == [t[0]] + t[1..];
      AtSplit(s, j, [t[0]], t[1..]);
      AtChar(s, j, t[0]);
      ClosePlain(s, j + 1, t[1..], d);
    }
  }

  /** Where the pieces of a printed group stand. */
  ghost predicate GroupAt(s: string, j: nat, c: char, inner: string, tail: string) {
    && At(s, j, Quote(c)) && At(s, j + 3, " ") && At(s, j + 4, "(") && At(s, j + 5, inner)
    && At(s, j + 5 + |inner|, ")") && At(s, j + 6 + |inner|, tail)
  }

  lemma GroupPieces(s: string, j: nat, c: char, inner: string, opt: bool)
    requires At(s, j, GroupText(c, inner, opt))
    ensures GroupAt(s, j, c, inner, if opt then "?" else "")
  {
    var tail := if opt then "?" else "";
    hide At;
    hide Quote;
    assert |Quote(c)| == 3 by { QuoteLength(c); }
    assert " (" == " " + "(";
    AtSplit(s, j, Quote(c) + " (" + inner + ")", tail);
    AtSplit3(s, j, Quote(c) + " (", inner, ")");
    AtSplit(s, j, Quote(c), " (");
    AtSplit(s, j + 3, " ", "(");
  }

  lemma QuoteLength(c: char)
    ensures |Quote(c)| == 3
  {
  }

  lemma {:induction false} CloseAlt(s: string, j: nat, a: Alt, d: nat)
    requires PrintableAlt(a) && At(s, j, PrintAlt(a)) && d > 0
    ensures Close(s, j, d) == Close(s, j + |PrintAlt(a)|, d)
    decreases a, 0
  {
    hide At;
    hide Close;
    match a
    case Lit(c) => ClosePlain(s, j, Quote(c), d);
    case Then(c, inner, opt) =>
      var tail := if opt then "?" else "";
      assert PrintAlt(a) == GroupText(c, Print(inner), opt);
      hide Print;
      GroupPieces(s, j, c, Print(inner), opt);
      var k := j + 5 + |Print(inner)|;
      ClosePlain(s, j, Quote(c), d);
      ClosePlain(s, j + 3, " ", d);
      CloseChar(s, j + 4, '(', d);
      CloseInside(s, j + 5, inner, d + 1);
      CloseChar(s, k, ')', d + 1);
      ClosePlain(s, k + 1, tail, d);
  }

  lemma CloseChar(s: string, j: nat, c: char, d: nat)
    requires At(s, j, [c]) && d > 0
    ensures Deeper(c, d) >= 0 && j < |s| && Close(s, j, d) == Close(s, j + 1, Deeper(c, d))
  {
    AtChar(s, j, c);
  }

  lemma {:induction false} CloseInside(s: string, j: nat, alts: seq<Alt>, d: nat)
    requires alts != [] && Printable(alts) && At(s, j, Print(alts)) && d > 0
    ensures Close(s, j, d) == Close(s, j + |Print(alts)|, d)
    decreases alts, 1
  {
    hide Close;
    hide PrintAlt;
    hide At;
    var a := PrintAlt(alts[0]);
    if |alts| == 1 {
      assert Print(alts) == a;
      CloseAlt(s, j, alts[0], d);
    } else {
      PrintMore(alts);
      hide Print;
      AtSplit3(s, j, a, " | ", Print(alts[1..]));
      CloseAlt(s, j, alts[0], d);
      ClosePlain(s, j + |a|, " | ", d);
      CloseInside(s, j + |a| + 3, alts[1..], d);
    }
  }

  /** What `_tokens` makes of one printed alternative. */
  function AltTokens(a: Alt): seq<Token> {
    match a
    case Lit(c) => [Quoted([c])]
    case Then(c, inner, opt) => [Quoted([c]), Group(Print(inner), opt)]
  }

  lemma TokensQuote(s: string, i: nat, c: char)
    requires At(s, i, Quote(c)) && Plain(c)
    ensures i + 3 <= |s| && Tokens(s, i) == Prepend(Quoted([c]), Tokens(s, i + 3))
  {
    var t := Quote(c);
    assert t[0] == '"' && t[1] == c && t[2] == '"';
    assert FindQuote(s, i + 1) == FindQuote(s, i + 2) == i + 2;
    assert s[i + 1..i + 2] == [c];
  }

  lemma PrependLast(t: Token)
    ensures Prepend(t, Some([])) == Some([t])
  {
    assert [t] + [] == [t];
  }

  /** The group branch of `Tokens`, when the group closes at `k`. */
  lemma TokensOpen(s: string, i: nat, k: nat)
    requires i < |s| && s[i] == '(' && Close(s, i + 1, 1) == Some(k) && k <= |s|
    ensures i + 1 < k && Tokens(s, i) ==
              if k < |s| && s[k] == '?' then Prepend(Group(s[i + 1..k - 1], true), Tokens(s, k + 1))
              else Prepend(Group(s[i + 1..k - 1], false), Tokens(s, k))
  {
    hide Close;
  }

  lemma TokensEnd(s: string)
    ensures Tokens(s, |s|) == Some([])
  {
  }

  /** A printed group that ends the text. */
  lemma TokensGroup(s: string, i: nat, inner: seq<Alt>, opt: bool)
    requires inner != [] && Printable(inner)
    requires At(s, i, "(") && At(s, i + 1, Print(inner)) && At(s, i + 1 + |Print(inner)|, ")")
    requires At(s, i + 2 + |Print(inner)|, if opt then "?" else "") &&
             |s| == i + 2 + |Print(inner)| + (if opt then 1 else 0)
    ensures Tokens(s, i) == Some([Group(Print(inner), opt)])
  {
    hide Print;
    hide At;
    hide Tokens;
    var k := i + 1 + |Print(inner)|;
    AtChar(s, i, '(');
    CloseInside(s, i + 1, inner, 1);
    CloseChar(s, k, ')', 1);
    assert Close(s, k + 1, 0) == Some(k + 1);
    hide Close;
    TokensOpen(s, i, k + 1);
    AtSlice(s, i + 1, Print(inner));
    if opt { AtChar(s, k + 1, '?'); }
    TokensEnd(s);
    PrependLast(Group(Print(inner), opt));
  }

  lemma TokensSpace(s: string, i: nat)
    requires At(s, i, " ")
    ensures i < |s| && Tokens(s, i) == Tokens(s, i + 1)
  {
    AtChar(s, i, ' ');
  }

  lemma TokensAlt(a: Alt)
    requires PrintableAlt(a)
    ensures Tokens(PrintAlt(a), 0) == Some(AltTokens(a))
  {
    hide Tokens;
    hide At;
    var s := PrintAlt(a);
    AtWhole(s);
    TokensEnd(s);
    match a
    case Lit(c) =>
      TokensQuote(s, 0, c);
      PrependLast(Quoted([c]));
    case Then(c, inner, opt) =>
      assert s == GroupText(c, Print(inner), opt);
      hide Print;
      GroupPieces(s, 0, c, Print(inner), opt);
      TokensQuote(s, 0, c);
      TokensSpace(s, 3);
      TokensGroup(s, 4, inner, opt);
      assert [Quoted([c])] + [Group(Print(inner), opt)] == AltTokens(a);
  }

  // ---------------------------------------------------------------- what a printed expression accepts

  /** The ends are exactly where a word of the expression stops. */
  ghost predicate EndsAre(r: Option<seq<nat>>, alts: seq<Alt>, s: string, pos: nat)
    requires pos <= |s|
  {
    r.Some? && forall e: nat :: e in r.value <==> pos <= e <= |s| && Matches(alts, s[pos..e])
  }

  lemma {:induction false} MatchPrinted(alts: seq<Alt>, s: string, pos: nat)
    requires alts != [] && Printable(alts) && pos <= |s|
    ensures EndsAre(MatchAlt(Print(alts), s, pos), alts, s, pos)
    decreases alts, 2
  {
    hide MatchParts;
    hide Split;
    hide Print;
    SplitPrint(alts, "");
    SplitShorter(Print(alts), 0, "", |Print(alts)|);
    MatchEach(alts, |Print(alts)|, s, pos);
  }

  lemma {:induction false} MatchEach(alts: seq<Alt>, bound: nat, s: string, pos: nat)
    requires Printable(alts) && pos <= |s| && AllWithin(PrintEach(alts), bound)
    ensures EndsAre(MatchParts(PrintEach(alts), bound, s, pos), alts, s, pos)
    decreases alts, 1
  {
    hide MatchSeq;
    hide MatchesAlt;
    hide PrintAlt;
    if alts != [] {
      var texts := PrintEach(alts);
      assert texts[1..] == PrintEach(alts[1..]);
      assert forall i | 0 <= i < |alts[1..]| :: texts[1..][i] == texts[i + 1];
      MatchEach(alts[1..], bound, s, pos);
      MatchOne(alts[0], s, pos);
    }
  }

  lemma {:induction false} MatchOne(a: Alt, s: string, pos: nat)
    requires PrintableAlt(a) && pos <= |s|
    ensures var r := MatchSeq(PrintAlt(a), s, pos);
            r.Some? && forall e: nat :: e in r.value <==> pos <= e <= |s| && MatchesAlt(a, s[pos..e])
    decreases a, 0
  {
    hide Tokens;
    hide Print;
    hide MatchAlt;
    hide Matches;
    TokensAlt(a);
    var part := PrintAlt(a);
    assert part == PrintAlt(a) && |part| >= 3;
    GroupShorter(a);
    match a
    case Lit(c) =>
      assert AltTokens(a) == [Quoted([c])] + [];
      OneQuoted(c, [], |part|, s, pos);
      forall e: nat | pos <= e <= |s|
        ensures MatchesAlt(a, s[pos..e]) <==> pos < |s| && s[pos] == c && e == pos + 1
      {
        if e > pos { assert s[pos..e][0] == s[pos]; }
      }
    case Then(c, inner, opt) =>
      var g := Group(Print(inner), opt);
      assert AltTokens(a) == [Quoted([c])] + [g];
      OneQuoted(c, [g], |part|, s, pos);
      if pos < |s| && s[pos] == c {
        MatchPrinted(inner, s, pos + 1);
        OneGroup(g, |part|, s, pos + 1);
        forall e: nat | pos <= e <= |s|
          ensures MatchesAlt(a, s[pos..e]) <==> (opt && e == pos + 1) || (e > pos && Matches(inner, s[pos + 1..e]))
        {
          if e > pos { assert s[pos..e][0] == s[pos] && s[pos..e][1..] == s[pos + 1..e]; }
        }
      } else {
        forall e: nat | pos <= e <= |s|
          ensures !MatchesAlt(a, s[pos..e])
        {
          if e > pos { assert s[pos..e][0] == s[pos]; }
        }
      }
  }

  lemma GroupShorter(a: Alt)
    ensures a.Then? ==> |Print(a.inner)| < |PrintAlt(a)|
  {
  }

  /** A one-character literal consumes it or ends the match. */
  lemma OneQuoted(c: char, more: seq<Token>, bound: nat, s: string, pos: nat)
    requires pos <= |s| && 1 < bound && Shorter(more, bound)
    ensures MatchTokens([Quoted([c])] + more, bound, s, [pos]) ==
            if pos < |s| && s[pos] == c then MatchTokens(more, bound, s, [pos + 1]) else Some([])
  {
    var t := Quoted([c]);
    assert ([t] + more)[1..] == more;
    assert [pos][1..] == [];
    assert pos < |s| ==> s[pos..pos + 1] == [s[pos]];
    assert Advance(t, bound, s, []) == Some([]);
    assert forall xs: seq<nat> :: xs + [] == xs;
    assert StartsWith(s, [c], pos) <==> pos < |s| && s[pos] == c;
    assert Advance(t, bound, s, [pos]) == Some(if pos < |s| && s[pos] == c then [pos + 1] else []);
  }

  lemma OneGroup(g: Token, bound: nat, s: string, p: nat)
    requires g.Group? && |g.body| < bound && MatchAlt(g.body, s, p).Some?
    ensures MatchTokens([g], bound, s, [p]) == Some((if g.opt then [p] else []) + MatchAlt(g.body, s, p).value)
  {
    hide MatchAlt;
    assert [g][1..] == [] && [p][1..] == [];
    assert Advance(g, bound, s, []) == Some([]);
    var out := (if g.opt then [p] else []) + MatchAlt(g.body, s, p).value;
    assert out + [] == out;
    assert Advance(g, bound, s, [p]) == Some(out);
    assert MatchTokens([], bound, s, out) == Some(out);
  }

  lemma PrintStrips(alts: seq<Alt>)
    requires alts != [] && Printable(alts)
    ensures Strip(Print(alts)) == Print(alts)
  {
    PrintAllEdges(alts);
    StripEdges(Print(alts));
  }

  lemma {:induction false} PrintAllEdges(alts: seq<Alt>)
    requires alts != [] && Printable(alts)
    ensures var t := Print(alts); t != "" && !IsSpace(t[0]) && !IsSpace(t[|t| - 1])
    decreases alts
  {
    hide PrintAlt;
    PrintEdges(alts[0]);
    if |alts| > 1 {
      PrintAllEdges(alts[1..]);
      PrintMore(alts);
    }
  }

  /** The text matcher accepts of a printed expression exactly the words the expression means, and never raises. */
  lemma AcceptsPrinted(alts: seq<Alt>, s: string)
    requires alts != [] && Printable(alts)
    ensures Accepts(Print(alts), s) == Some(Matches(alts, s))
  {
    hide MatchAlt;
    hide Print;
    hide Matches;
    PrintStrips(alts);
    MatchPrinted(alts, s, 0);
    assert s[0..|s|] == s;
  }
}
