/** Static effect analysis (core/effects.py). */
module Effects {
  import opened Common
  import opened Ir

  /** `_walk_calls`: every call of a block in text order, reachable or not. */
  function WalkCalls(body: seq<Stmt>): seq<CallI>
    decreases body
  {
    if body == [] then [] else StmtCalls(body[0]) + WalkCalls(body[1..])
  }

  function StmtCalls(s: Stmt): seq<CallI>
    decreases s
  {
    match s.instr
    case DoCall(c) => [c]
    case Foreach(_, _, b) => WalkCalls(b)
    case If(_, t, e) => WalkCalls(t) + (match e case NoElse => [] case Else(b) => WalkCalls(b))
    case Parallel(calls) => calls
    case Try(_, _, b) => WalkCalls(b)
    case _ => []
  }

  function CallEffects(ctx: TaskContext, c: CallI): set<Effect> {
    if c.tool in ctx.tools then ctx.tools[c.tool].effects else {}
  }

  function EffectsOf(ctx: TaskContext, calls: seq<CallI>): set<Effect> {
    set i, e | 0 <= i < |calls| && e in CallEffects(ctx, calls[i]) :: e
  }

  method ProgramEffects(ctx: TaskContext, body: seq<Stmt>) returns (effects: set<Effect>)
    ensures effects == EffectsOf(ctx, WalkCalls(body))
  {
    effects := {};
    var calls := WalkCalls(body);
    for i := 0 to |calls|
      invariant effects == EffectsOf(ctx, calls[..i])
    {
      effects := effects + CallEffects(ctx, calls[i]);
    }
    assert calls[..|calls|] == calls;
  }

  /** The call stands somewhere in the block, in an arm, a loop, a TRY or a PARALLEL. */
  ghost predicate StandsIn(body: seq<Stmt>, c: CallI)
    decreases body
  {
    exists i | 0 <= i < |body| :: StandsInStmt(body[i], c)
  }

  ghost predicate StandsInStmt(s: Stmt, c: CallI)
    decreases s
  {
    match s.instr
    case DoCall(own) => c == own
    case Foreach(_, _, b) => StandsIn(b, c)
    case If(_, t, e) => StandsIn(t, c) || (match e case NoElse => false case Else(b) => StandsIn(b, c))
    case Parallel(calls) => c in calls
    case Try(_, _, b) => StandsIn(b, c)
    case _ => false
  }

  lemma {:induction false} WalkExactly(body: seq<Stmt>, c: CallI)
    ensures c in WalkCalls(body) <==> StandsIn(body, c)
    decreases body
  {
    if body != [] {
      StmtWalkExactly(body[0], c);
      WalkExactly(body[1..], c);
      hide StandsInStmt;
      assert body == [body[0]] + body[1..];
      if StandsIn(body, c) {
        var i :| 0 <= i < |body| && StandsInStmt(body[i], c);
        if i > 0 { assert StandsInStmt(body[1..][i - 1], c); }
      }
    }
  }

  lemma {:induction false} StmtWalkExactly(s: Stmt, c: CallI)
    ensures c in StmtCalls(s) <==> StandsInStmt(s, c)
    decreases s
  {
    hide StandsIn;
    match s.instr
    case Foreach(_, _, b) => WalkExactly(b, c);
    case If(_, t, e) =>
      WalkExactly(t, c);
      if e.Else? { WalkExactly(e.body, c); }
    case Try(_, _, b) => WalkExactly(b, c);
    case _ =>
  }

  /** A property is in the static effect set exactly when a call of the text has it. */
  lemma EffectsExactly(ctx: TaskContext, body: seq<Stmt>, e: Effect)
    ensures e in EffectsOf(ctx, WalkCalls(body)) <==>
            exists c :: StandsIn(body, c) && c.tool in ctx.tools && e in ctx.tools[c.tool].effects
  {
    hide StandsIn;
    hide WalkCalls;
    var calls := WalkCalls(body);
    if e in EffectsOf(ctx, calls) {
      var i :| 0 <= i < |calls| && e in CallEffects(ctx, calls[i]);
      WalkExactly(body, calls[i]);
    }
    forall c | StandsIn(body, c) && c.tool in ctx.tools && e in ctx.tools[c.tool].effects
      ensures e in EffectsOf(ctx, calls)
    {
      WalkExactly(body, c);
      var i :| 0 <= i < |calls| && calls[i] == c;
      assert e in CallEffects(ctx, calls[i]);
    }
  }

  /** All tools of a block lie in `syms`. */
  predicate CallsWithin(calls: seq<CallI>, syms: set<string>) {
    forall i | 0 <= i < |calls| :: calls[i].tool in syms
  }

  predicate Within(body: seq<Stmt>, syms: set<string>)
    decreases body
  {
    body == [] || (StmtWithin(body[0], syms) && Within(body[1..], syms))
  }

  predicate StmtWithin(s: Stmt, syms: set<string>)
    decreases s
  {
    match s.instr
    case DoCall(c) => c.tool in syms
    case Foreach(_, _, b) => Within(b, syms)
    case If(_, t, e) => Within(t, syms) && (match e case NoElse => true case Else(b) => Within(b, syms))
    case Parallel(calls) => CallsWithin(calls, syms)
    case Try(_, _, b) => Within(b, syms)
    case _ => true
  }

  lemma {:induction false} WithinWalk(body: seq<Stmt>, syms: set<string>)
    ensures Within(body, syms) <==> CallsWithin(WalkCalls(body), syms)
    decreases body
  {
    if body != [] {
      StmtWithinWalk(body[0], syms);
      WithinWalk(body[1..], syms);
      WithinAppend(StmtCalls(body[0]), WalkCalls(body[1..]), syms);
    }
  }

  lemma WithinAppend(a: seq<CallI>, b: seq<CallI>, syms: set<string>)
    ensures CallsWithin(a + b, syms) <==> CallsWithin(a, syms) && CallsWithin(b, syms)
  {
    if CallsWithin(a + b, syms) {
      assert forall i | 0 <= i < |a| :: a[i] == (a + b)[i];
      assert forall i | 0 <= i < |b| :: b[i] == (a + b)[|a| + i];
    }
  }

  lemma {:induction false} StmtWithinWalk(s: Stmt, syms: set<string>)
    ensures StmtWithin(s, syms) <==> CallsWithin(StmtCalls(s), syms)
    decreases s
  {
    match s.instr
    case DoCall(c) => assert [c][0] == c;
    case Foreach(_, _, b) => WithinWalk(b, syms);
    case If(_, t, e) =>
      WithinWalk(t, syms);
      if e.Else? {
        WithinWalk(e.body, syms);
        WithinAppend(WalkCalls(t), WalkCalls(e.body), syms);
      } else {
        WithinAppend(WalkCalls(t), [], syms);
      }
    case Try(_, _, b) => WithinWalk(b, syms);
    case _ =>
  }

  /** The tools a block calls. */
  function Symbols(body: seq<Stmt>): set<string> {
    set i | 0 <= i < |WalkCalls(body)| :: WalkCalls(body)[i].tool
  }

  lemma SymbolsWithin(body: seq<Stmt>)
    ensures Within(body, Symbols(body))
  {
    hide WalkCalls;
    hide Within;
    var calls := WalkCalls(body);
    forall i | 0 <= i < |calls|
      ensures calls[i].tool in Symbols(body)
    {
    }
    WithinWalk(body, Symbols(body));
  }
}
