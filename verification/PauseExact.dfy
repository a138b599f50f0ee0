/** Exactly when a PAUSE may be taken. */
module PauseExact {
  import opened Common
  import opened Ir
  import opened Runtime
  import opened Semantics
  import opened Effects
  import opened Invariant
  import opened Simulation
  import opened Gate
  import opened Ids
  import opened Pause
  import opened PauseLimits

  /** Under this operation budget, going on from the PAUSE and starting afresh meet, if going on stays within it. */
  ghost predicate Agrees(cfg: Config, budget: nat, b: seq<Stmt>, regs: Regs, w: World) {
    var c, st := cfg.(maxOps := budget), St(regs, w);
    var straight := Straight(c, b, regs.Keys, st);
    straight.st.w.ops <= budget ==> Meets(w, straight, Restarted(c, b, st))
  }

  /** Every continuation that calls tools of `syms`, from whatever registers and budget, can be started afresh. */
  ghost predicate SplitsAlways(cfg: Config, syms: set<string>, w: World) {
    forall budget: nat, b: seq<Stmt>, regs: Regs | Symbols(b) <= syms :: Agrees(cfg, budget, b, regs, w)
  }

  ghost predicate SomeErases(cfg: Config, syms: set<string>, e: string) {
    exists sym :: sym in syms && Open(cfg, sym) && Erases(cfg.tools[sym], e)
  }

  /** The condition, read off the sandbox at the PAUSE and the tools' descriptors. */
  ghost predicate Sparing(cfg: Config, syms: set<string>, w: World) {
    forall e | e in Held(Makes(cfg, syms), w) ::
        w.counters[e] == MaxSuffix(Rows(w.store, e)) && !SomeErases(cfg, syms, e)
  }

  /** Tools the gate lets through leave `id` alone; foreign ones leave the records alone. */
  ghost predicate OpenSafe(cfg: Config, syms: set<string>) {
    forall sym | sym in syms && Open(cfg, sym) :: SafeTool(cfg, cfg.tools[sym].impl)
  }

  // ---------------------------------------------------------------- the condition suffices

  lemma FewerMakes(cfg: Config, budget: nat, few: set<string>, syms: set<string>)
    requires few <= syms
    ensures Makes(cfg.(maxOps := budget), few) <= Makes(cfg, syms)
  {
    var c := cfg.(maxOps := budget);
    forall e | e in Makes(c, few)
      ensures e in Makes(cfg, syms)
    {
      var sym :| sym in few && Open(c, sym) && c.tools[sym].impl.Create? && c.tools[sym].impl.entity == e;
      assert Open(cfg, sym);
    }
  }

  lemma SparingCalm(cfg: Config, budget: nat, few: set<string>, syms: set<string>, w: World)
    requires OpenSafe(cfg, syms) && Sparing(cfg, syms, w) && few <= syms
    ensures var c := cfg.(maxOps := budget); var held := Held(Makes(c, few), w); Tight(held, w) && AllCalm(c, few, held)
  {
    hide MaxSuffix;
    hide SafeImpl;
    hide Makes;
    FewerMakes(cfg, budget, few, syms);
    var c := cfg.(maxOps := budget);
    var held := Held(Makes(c, few), w);
    assert held <= Held(Makes(cfg, syms), w);
    forall sym | sym in few && Open(c, sym)
      ensures Calm(c, c.tools[sym], held)
    {
      assert Open(cfg, sym) && SafeTool(cfg, cfg.tools[sym].impl);
      CalmTool(cfg, c, sym, syms, held, w);
    }
  }

  lemma CalmTool(cfg: Config, c: Config, sym: string, syms: set<string>, held: set<string>, w: World)
    requires c == cfg.(maxOps := c.maxOps) && sym in syms && Open(cfg, sym) && SafeTool(cfg, cfg.tools[sym].impl)
    requires held <= Held(Makes(cfg, syms), w) && Sparing(cfg, syms, w)
    ensures Calm(c, c.tools[sym], held)
  {
    hide MaxSuffix;
    hide Makes;
    var tool := c.tools[sym];
    match tool.impl
    case Delete(e, _) => if e in held { assert !SomeErases(cfg, syms, e); }
    case Foreign(name) =>
      forall store, params, e | e in held
        ensures MaxSuffix(Rows(c.foreign(name, store, params).0, e)) == MaxSuffix(Rows(store, e))
      {
        assert cfg.foreign(name, store, params).0.entities == store.entities;
      }
    case _ =>
  }

  lemma SparingSplits(cfg: Config, syms: set<string>, w: World)
    requires OpenSafe(cfg, syms) && w.injections == [] && Sparing(cfg, syms, w)
    ensures SplitsAlways(cfg, syms, w)
  {
    hide Symbols;
    hide ExecBlock;
    hide OpenSafe;
    hide Sparing;
    hide Tight;
    hide AllCalm;
    forall budget: nat, b: seq<Stmt>, regs: Regs | Symbols(b) <= syms
      ensures Agrees(cfg, budget, b, regs, w)
    {
      var c := cfg.(maxOps := budget);
      SparingCalm(cfg, budget, Symbols(b), syms, w);
      if Straight(c, b, regs.Keys, St(regs, w)).st.w.ops <= budget { ResumesAlike(c, b, regs.Keys, St(regs, w)); }
    }
  }

  // ---------------------------------------------------------------- calls with registers and nulls for arguments

  predicate PlainOps(ops: seq<Operand>) {
    forall i | 0 <= i < |ops| :: ops[i].OReg? || ops[i].ONull?
  }

  function PlainVal(regs: Regs, op: Operand): Value {
    if op.OReg? then Lookup(regs, op.n) else Nil
  }

  function PlainVals(regs: Regs, ops: seq<Operand>): seq<Value> {
    seq(|ops|, i requires 0 <= i < |ops| => PlainVal(regs, ops[i]))
  }

  lemma {:induction false} EvalPlain(cfg: Config, regs: Regs, w: World, ops: seq<Operand>)
    requires PlainOps(ops)
    ensures EvalOps(cfg, regs, w, ops) == StepAll(w, Ok(PlainVals(regs, ops)))
    decreases ops
  {
    if ops != [] {
      EvalPlain(cfg, regs, w, ops[1..]);
      assert EvalOp(cfg, regs, w, ops[0]) == Step(w, Ok(PlainVal(regs, ops[0])));
      assert [PlainVal(regs, ops[0])] + PlainVals(regs, ops[1..]) == PlainVals(regs, ops);
    } else {
      assert PlainVals(regs, ops) == [];
    }
  }

  lemma {:induction false} NarrowedSame(params: seq<ToolParam>, args: seq<Value>, i: nat)
    requires |args| == |params| && i <= |params| && forall k | 0 <= k < |args| :: args[k].Nil? || args[k].Str?
    ensures Narrowed(params, args, i) == Ok(args[i..])
    decreases |params| - i
  {
    if i < |params| {
      NarrowedSame(params, args, i + 1);
      assert NarrowId(args[i]) == args[i];
      assert [args[i]] + args[i + 1..] == args[i..];
    }
  }

  // ---------------------------------------------------------------- the create

  function Nulls(k: nat): seq<Operand> {
    seq(k, i requires 0 <= i < k => ONull)
  }

  function MakeStmt(cfg: Config, sym: string): Stmt
    requires sym in cfg.tools
  {
    At(0, DoCall(CallI(sym, Nulls(|cfg.tools[sym].params|), None, 0)))
  }

  lemma MakeRuns(cfg: Config, sym: string, seen: set<nat>, st: St)
    requires Open(cfg, sym) && cfg.tools[sym].impl.Create? && SafeImpl(cfg.tools[sym].impl)
    requires st.w.injections == [] && st.w.ops < cfg.maxOps
    ensures var e := cfg.tools[sym].impl.entity;
            var o := ExecStmt(cfg, MakeStmt(cfg, sym), seen, st);
            var rows := Rows(o.st.w.store, e);
            && o.flow.Next? && o.st.w.ops == st.w.ops + 1
            && |rows| == |Rows(st.w.store, e)| + 1
            && RecId(rows[|rows| - 1]) == IdOf(e, Counter(st.w.store, st.w.counters, e) + 1)
  {
    hide Counter;
    hide Created;
    var tool := cfg.tools[sym];
    var ops := Nulls(|tool.params|);
    EvalPlain(cfg, st.regs, st.w, ops);
    var args := PlainVals(st.regs, ops);
    NarrowedSame(tool.params, args, 0);
    assert args[0..] == args;
    hide Narrowed;
    hide EvalOps;
    CreatedHasId(cfg, tool.impl, Counter(st.w.store, st.w.counters, tool.impl.entity) + 1, args);
    hide RecId;
    hide SafeImpl;
  }

  /** With the counter away from the largest live suffix, one create tells the two runs apart. */
  lemma LooseCounterBreaks(cfg: Config, sym: string, w: World)
    requires Open(cfg, sym) && cfg.tools[sym].impl.Create? && SafeImpl(cfg.tools[sym].impl) && w.injections == []
    requires var e := cfg.tools[sym].impl.entity; e in w.counters && w.counters[e] != MaxSuffix(Rows(w.store, e))
    ensures !Agrees(cfg, w.ops + 1, [MakeStmt(cfg, sym)], map[], w)
  {
    hide ExecStmt;
    hide ExecBlock;
    hide MaxSuffix;
    hide SafeImpl;
    hide RecId;
    hide IdOf;
    hide InitialRegs;
    var c, e := cfg.(maxOps := w.ops + 1), cfg.tools[sym].impl.entity;
    var make := MakeStmt(cfg, sym);
    assert make == MakeStmt(c, sym);
    var none: Regs := map[];
    var s1 := St(none, w);
    assert Bound(none) == none && none.Keys == {};
    var c2 := Reseeded(c, s1.regs);
    var s2 := St(InitialRegs(c2, {}), Fresh(w.store));
    assert make == MakeStmt(c2, sym) && Open(c2, sym);
    One(c, make, {}, s1);
    One(c2, make, {}, s2);
    MakeRuns(c, sym, {}, s1);
    MakeRuns(c2, sym, {}, s2);
    IdsDiffer(e, w.counters[e] + 1, MaxSuffix(Rows(w.store, e)) + 1);
  }

  // ---------------------------------------------------------------- deleting down to a smaller suffix

  function Without(rows: seq<Value>, id: Value): seq<Value> {
    var i := FindIndex(rows, id);
    if i == |rows| then rows else rows[..i] + rows[i + 1..]
  }

  function Removed(rows: seq<Value>, ids: seq<Value>): seq<Value>
    decreases ids
  {
    if ids == [] then rows else Removed(Without(rows, ids[0]), ids[1..])
  }

  /** Each id is found in turn. */
  predicate Findable(rows: seq<Value>, ids: seq<Value>)
    decreases ids
  {
    ids == [] || (ids[0].Str? && FindIndex(rows, ids[0]) < |rows| && Findable(Without(rows, ids[0]), ids[1..]))
  }

  lemma {:induction false} LargestAt(rows: seq<Value>) returns (i: nat)
    requires MaxSuffix(rows) > 0
    ensures i < |rows| && IdSuffix(RecId(rows[i])) == Some(MaxSuffix(rows))
    decreases rows
  {
    hide IdSuffix;
    hide RecId;
    var n := |rows| - 1;
    if MaxSuffix(rows) == MaxSuffix(rows[..n]) && IdSuffix(RecId(rows[n])) != Some(MaxSuffix(rows)) {
      i := LargestAt(rows[..n]);
    } else {
      i := n;
    }
  }

  /** Some sequence of deletions lowers the largest suffix. */
  lemma {:induction false} LowerSuffix(rows: seq<Value>) returns (ids: seq<Value>)
    requires MaxSuffix(rows) > 0
    ensures Findable(rows, ids) && MaxSuffix(Removed(rows, ids)) < MaxSuffix(rows)
    decreases |rows|
  {
    hide MaxSuffix;
    hide RecId;
    var i := LargestAt(rows);
    var id := RecId(rows[i]);
    assert id.Str?;
    hide IdSuffix;
    var j := FindIndex(rows, id);
    assert j < |rows|;
    var rest := Without(rows, id);
    assert rest == rows[..j] + rows[j + 1..];
    RemovalSuffix(rows, j);
    if MaxSuffix(rest) < MaxSuffix(rows) {
      ids := [id];
      assert Findable(rest, []) && Removed(rest, []) == rest;
      assert ids[1..] == [];
    } else {
      var more := LowerSuffix(rest);
      ids := [id] + more;
      assert ids[1..] == more;
    }
  }

  function EraseArgs(k: nat, at: nat): seq<Operand> {
    seq(k, i requires 0 <= i < k => if i == at then OReg(1) else ONull)
  }

  function EraseStmt(cfg: Config, sym: string): Stmt
    requires sym in cfg.tools && cfg.tools[sym].impl.Delete?
  {
    At(0, DoCall(CallI(sym, EraseArgs(|cfg.tools[sym].params|, cfg.tools[sym].impl.idParam), None, 0)))
  }

  /** What a deletion leaves of a world, seen from entity `e`. */
  ghost predicate Leaves(w: World, o: Out, e: string, rows: seq<Value>, ops: nat) {
    && o.flow.Next? && o.st.w.counters == w.counters && o.st.w.injections == [] && o.st.w.ops == ops
    && Rows(o.st.w.store, e) == rows
  }

  lemma EraseRuns(cfg: Config, sym: string, e: string, id: Value, seen: set<nat>, st: St)
    requires Open(cfg, sym) && Erases(cfg.tools[sym], e) && st.w.injections == [] && st.w.ops < cfg.maxOps
    requires id.Str? && 1 in st.regs && st.regs[1] == id && FindIndex(Rows(st.w.store, e), id) < |Rows(st.w.store, e)|
    ensures Leaves(st.w, ExecBlock(cfg, [EraseStmt(cfg, sym)], seen, st), e, Without(Rows(st.w.store, e), id),
                   st.w.ops + 1)
  {
    hide FindIndex;
    var tool := cfg.tools[sym];
    var ops := EraseArgs(|tool.params|, tool.impl.idParam);
    EvalPlain(cfg, st.regs, st.w, ops);
    var args := PlainVals(st.regs, ops);
    NarrowedSame(tool.params, args, 0);
    assert args[0..] == args && ParamAt(args, tool.impl.idParam) == id;
    hide Narrowed;
    hide EvalOps;
    One(cfg, EraseStmt(cfg, sym), seen, st);
    hide ExecBlock;
  }

  lemma {:induction false} EachErases(cfg: Config, sym: string, e: string, ids: seq<Value>, seen: set<nat>, st: St)
    requires Open(cfg, sym) && Erases(cfg.tools[sym], e) && st.w.injections == [] && st.w.ops + |ids| <= cfg.maxOps
    requires Findable(Rows(st.w.store, e), ids)
    ensures Leaves(st.w, ExecEach(cfg, ids, 1, [EraseStmt(cfg, sym)], seen, st), e, Removed(Rows(st.w.store, e), ids),
                   st.w.ops + |ids|)
    decreases ids
  {
    hide ExecBlock;
    hide Without;
    hide EraseStmt;
    hide FindIndex;
    if ids != [] {
      var st1 := St(st.regs[1 := ids[0]], st.w);
      EraseRuns(cfg, sym, e, ids[0], seen, st1);
      var o := ExecBlock(cfg, [EraseStmt(cfg, sym)], seen, st1);
      EachErases(cfg, sym, e, ids[1..], seen, o.st);
    }
  }

  /** FOREACH r0 -> r1 [CALL erase r1]; CALL make. */
  function EraseThenMake(cfg: Config, erase: string, make: string): seq<Stmt>
    requires erase in cfg.tools && cfg.tools[erase].impl.Delete? && make in cfg.tools
  {
    [At(0, Foreach(0, 1, [EraseStmt(cfg, erase)])), MakeStmt(cfg, make)]
  }

  /** The number of the id the closing create issues. */
  lemma EraseThenMakeRuns(cfg: Config, erase: string, make: string, ids: seq<Value>, seen: set<nat>, st: St)
    requires Open(cfg, erase) && Open(cfg, make) && cfg.tools[make].impl.Create? && SafeImpl(cfg.tools[make].impl)
    requires Erases(cfg.tools[erase], cfg.tools[make].impl.entity)
    requires st.w.injections == [] && st.w.ops + |ids| < cfg.maxOps && Lookup(st.regs, 0) == List(ids)
    requires Findable(Rows(st.w.store, cfg.tools[make].impl.entity), ids)
    ensures var e := cfg.tools[make].impl.entity;
            var o := ExecBlock(cfg, EraseThenMake(cfg, erase, make), seen, st);
            var left := Removed(Rows(st.w.store, e), ids);
            var n := if e in st.w.counters then st.w.counters[e] else MaxSuffix(left);
            var rows := Rows(o.st.w.store, e);
            o.st.w.ops == st.w.ops + |ids| + 1 && |rows| == |left| + 1 && RecId(rows[|rows| - 1]) == IdOf(e, n + 1)
  {
    hide ExecBlock;
    hide ExecEach;
    hide MaxSuffix;
    hide MakeStmt;
    hide EraseStmt;
    hide SafeImpl;
    hide RecId;
    hide IdOf;
    hide Removed;
    hide Findable;
    var loop, create := At(0, Foreach(0, 1, [EraseStmt(cfg, erase)])), MakeStmt(cfg, make);
    EachErases(cfg, erase, cfg.tools[make].impl.entity, ids, seen + {1}, st);
    var o := ExecStmt(cfg, loop, seen, st);
    assert o == ExecEach(cfg, ids, 1, [EraseStmt(cfg, erase)], seen + {1}, st);
    hide ExecStmt;
    hide StmtDsts;
    assert EraseThenMake(cfg, erase, make) == [loop] + [create];
    Then(cfg, loop, [create], seen, st);
    One(cfg, create, seen + StmtDsts(loop), o.st);
    MakeRuns(cfg, make, seen + StmtDsts(loop), o.st);
  }

  /** With a tool that deletes there, deleting down to a smaller suffix and creating tells the two runs apart. */
  lemma EraseBreaks(cfg: Config, erase: string, make: string, w: World) returns (budget: nat, ids: seq<Value>)
    requires Open(cfg, erase) && Open(cfg, make) && cfg.tools[make].impl.Create? && SafeImpl(cfg.tools[make].impl)
    requires Erases(cfg.tools[erase], cfg.tools[make].impl.entity) && w.injections == []
    requires var e := cfg.tools[make].impl.entity;
             e in w.counters && w.counters[e] > 0 && w.counters[e] == MaxSuffix(Rows(w.store, e))
    ensures !Agrees(cfg, budget, EraseThenMake(cfg, erase, make), map[0 := List(ids)], w)
  {
    hide ExecBlock;
    hide MaxSuffix;
    hide SafeImpl;
    hide RecId;
    hide IdOf;
    hide Removed;
    hide Findable;
    hide InitialRegs;
    hide MakeStmt;
    hide EraseStmt;
    var e := cfg.tools[make].impl.entity;
    ids := LowerSuffix(Rows(w.store, e));
    budget := w.ops + |ids| + 1;
    var c := cfg.(maxOps := budget);
    SameStmts(cfg, c, erase, make);
    var regs: Regs := map[0 := List(ids)];
    assert Bound(regs) == regs;
    var c2 := Reseeded(c, regs);
    SameStmts(cfg, c2, erase, make);
    SeedOne(c2, List(ids));
    var s1, s2 := St(regs, w), St(regs, Fresh(w.store));
    EraseThenMakeRuns(c, erase, make, ids, {0}, s1);
    EraseThenMakeRuns(c2, erase, make, ids, {0}, s2);
    IdsDiffer(e, w.counters[e] + 1, MaxSuffix(Removed(Rows(w.store, e), ids)) + 1);
    assert regs.Keys == {0};
  }

  lemma SameStmts(cfg: Config, c: Config, erase: string, make: string)
    requires c == cfg.(maxOps := c.maxOps, initial := c.initial)
    requires erase in cfg.tools && cfg.tools[erase].impl.Delete? && make in cfg.tools
    ensures EraseThenMake(cfg, erase, make) == EraseThenMake(c, erase, make)
  {
  }

  lemma MakeSymbols(cfg: Config, make: string)
    requires make in cfg.tools
    ensures Symbols([MakeStmt(cfg, make)]) == {make}
  {
    var b := [MakeStmt(cfg, make)];
    assert b[1..] == [];
    assert WalkCalls(b) == [b[0].instr.call];
    assert WalkCalls(b)[0].tool == make;
  }

  lemma EraseThenMakeSymbols(cfg: Config, erase: string, make: string)
    requires erase in cfg.tools && cfg.tools[erase].impl.Delete? && make in cfg.tools
    ensures Symbols(EraseThenMake(cfg, erase, make)) == {erase, make}
  {
    var b := EraseThenMake(cfg, erase, make);
    var inner := [EraseStmt(cfg, erase)];
    assert inner[1..] == [] && b[1..] == [b[1]] && b[1..][1..] == [];
    var c1, c2 := inner[0].instr.call, b[1].instr.call;
    assert WalkCalls(inner) == [c1];
    assert WalkCalls(b[1..]) == [c2];
    assert WalkCalls(b) == [c1] + [c2];
    assert WalkCalls(b)[0].tool == erase && WalkCalls(b)[1].tool == make;
  }

  lemma SplitsSparing(cfg: Config, syms: set<string>, w: World)
    requires OpenSafe(cfg, syms) && w.injections == [] && (forall e | e in w.counters :: w.counters[e] > 0)
    requires SplitsAlways(cfg, syms, w)
    ensures Sparing(cfg, syms, w)
  {
    hide SplitsAlways;
    hide MaxSuffix;
    hide SafeImpl;
    hide Erases;
    forall e | e in Held(Makes(cfg, syms), w)
      ensures w.counters[e] == MaxSuffix(Rows(w.store, e)) && !SomeErases(cfg, syms, e)
    {
      var make :| make in syms && Open(cfg, make) && cfg.tools[make].impl.Create? && cfg.tools[make].impl.entity == e;
      assert SafeTool(cfg, cfg.tools[make].impl);
      if w.counters[e] != MaxSuffix(Rows(w.store, e)) {
        LooseBroken(cfg, syms, make, w);
      } else if SomeErases(cfg, syms, e) {
        ErasesBroken(cfg, syms, make, w);
      }
    }
  }

  lemma LooseBroken(cfg: Config, syms: set<string>, make: string, w: World)
    requires make in syms && Open(cfg, make) && cfg.tools[make].impl.Create? && SafeImpl(cfg.tools[make].impl)
    requires var e := cfg.tools[make].impl.entity;
             w.injections == [] && e in w.counters && w.counters[e] != MaxSuffix(Rows(w.store, e))
    ensures !SplitsAlways(cfg, syms, w)
  {
    hide Symbols;
    hide Agrees;
    hide MaxSuffix;
    hide SafeImpl;
    LooseCounterBreaks(cfg, make, w);
    MakeSymbols(cfg, make);
    assert Symbols([MakeStmt(cfg, make)]) <= syms;
  }

  lemma ErasesBroken(cfg: Config, syms: set<string>, make: string, w: World)
    requires make in syms && Open(cfg, make) && cfg.tools[make].impl.Create? && SafeImpl(cfg.tools[make].impl)
    requires var e := cfg.tools[make].impl.entity;
             && w.injections == [] && SomeErases(cfg, syms, e)
             && e in w.counters && w.counters[e] > 0 && w.counters[e] == MaxSuffix(Rows(w.store, e))
    ensures !SplitsAlways(cfg, syms, w)
  {
    hide Symbols;
    hide Agrees;
    hide MaxSuffix;
    hide SafeImpl;
    var e := cfg.tools[make].impl.entity;
    var erase :| erase in syms && Open(cfg, erase) && Erases(cfg.tools[erase], e);
    var budget, ids := EraseBreaks(cfg, erase, make, w);
    EraseThenMakeSymbols(cfg, erase, make);
    assert Symbols(EraseThenMake(cfg, erase, make)) <= syms;
  }

  /** The exact condition for a set of tools: every continuation over them can be started afresh from the PAUSE if and
      only if, wherever they create records and an id was issued before, the largest suffix issued is still live and
      none of them deletes. Assumed of the host: descriptors leave `id` alone, foreign tools leave the records alone. */
  lemma SplitsExactly(cfg: Config, syms: set<string>, w: World)
    requires OpenSafe(cfg, syms) && w.injections == [] && forall e | e in w.counters :: w.counters[e] > 0
    ensures SplitsAlways(cfg, syms, w) <==> Sparing(cfg, syms, w)
  {
    hide SplitsAlways;
    hide Sparing;
    hide OpenSafe;
    if SplitsAlways(cfg, syms, w) { SplitsSparing(cfg, syms, w); }
    if Sparing(cfg, syms, w) { SparingSplits(cfg, syms, w); }
  }

  // ---------------------------------------------------------------- counters in use are positive

  function CountedInv(): Inv {
    (w: World) => forall e | e in w.counters :: w.counters[e] > 0
  }

  /** A sandbox run starts without counters and sets one only by issuing an id, so at a PAUSE each is positive. */
  lemma CountersPositive(cfg: Config, a: seq<Stmt>, init: set<nat>, store: Store)
    ensures var w := ExecBlock(cfg, a, init, St(InitialRegs(cfg, init), Fresh(store))).st.w;
            w.injections == [] && forall e | e in w.counters :: w.counters[e] > 0
  {
    hide ExecBlock;
    hide Symbols;
    var st := St(InitialRegs(cfg, init), Fresh(store));
    SymbolsWithin(a);
    CountedStable(cfg, Symbols(a));
    hide Stable;
    BlockKeeps(cfg, CountedInv(), AnyExn(), Symbols(a), a, init, st);
    NoInjections(cfg, a, init, st);
  }

  lemma CountedStable(cfg: Config, syms: set<string>)
    ensures Stable(cfg, CountedInv(), AnyExn(), syms)
  {
    hide Narrowed;
    hide Inject;
    hide Created;
    hide Updated;
    hide FindIndex;
    hide KeepWhere;
    hide Mapped;
    hide Counter;
  }

  /** So it is at the PAUSE of any segment. */
  lemma PauseExactly(cfg: Config, a: seq<Stmt>, init: set<nat>, store: Store, syms: set<string>)
    requires OpenSafe(cfg, syms)
    ensures var w := ExecBlock(cfg, a, init, St(InitialRegs(cfg, init), Fresh(store))).st.w;
            SplitsAlways(cfg, syms, w) <==> Sparing(cfg, syms, w)
  {
    hide ExecBlock;
    hide OpenSafe;
    hide SplitsAlways;
    hide Sparing;
    hide InitialRegs;
    CountersPositive(cfg, a, init, store);
    SplitsExactly(cfg, syms, ExecBlock(cfg, a, init, St(InitialRegs(cfg, init), Fresh(store))).st.w);
  }

  // ---------------------------------------------------------------- the registers

  /** RETURN rn after the PAUSE answers what the unsplit run would, for every n, exactly when the pause environment
      types all returned registers. */
  lemma RegistersExactly(cfg: Config, regs: Regs, pauseEnv: set<nat>, seen: set<nat>, w: World)
    ensures var c := Reseeded(cfg, regs);
            var seeds := Seeds(Bound(regs), pauseEnv);
            (forall n: nat :: ExecBlock(cfg, [At(0, Return(OReg(n)))], seen, St(regs, w)).flow ==
                              ExecBlock(c, [At(0, Return(OReg(n)))], seeds,
                                        St(InitialRegs(c, seeds), Fresh(w.store))).flow)
            <==> Bound(regs).Keys <= pauseEnv
  {
    hide ExecBlock;
    hide InitialRegs;
    hide Bound;
    var c := Reseeded(cfg, regs);
    var seeds := Seeds(Bound(regs), pauseEnv);
    var s1, s2 := St(regs, w), St(InitialRegs(c, seeds), Fresh(w.store));
    forall n: nat
      ensures ExecBlock(cfg, [At(0, Return(OReg(n)))], seen, s1).flow == Done(Returned(Lookup(regs, n)))
      ensures ExecBlock(c, [At(0, Return(OReg(n)))], seeds, s2).flow ==
              Done(Returned(if n in seeds then Lookup(regs, n) else Undef))
      ensures n in Bound(regs) <==> Lookup(regs, n) != Undef
    {
      One(cfg, At(0, Return(OReg(n))), seen, s1);
      One(c, At(0, Return(OReg(n))), seeds, s2);
      SeededAt(c, seeds, n);
      BoundAt(regs, n);
    }
    if forall n: nat ::
        ExecBlock(cfg, [At(0, Return(OReg(n)))], seen, s1).flow ==
        ExecBlock(c, [At(0, Return(OReg(n)))], seeds, s2).flow {
      forall n | n in Bound(regs).Keys
        ensures n in pauseEnv
      {
        assert n in Bound(regs);
        assert Lookup(regs, n) == if n in seeds then Lookup(regs, n) else Undef;
      }
    }
  }

  lemma BoundAt(regs: Regs, n: nat)
    ensures n in Bound(regs) <==> Lookup(regs, n) != Undef
    ensures n in Bound(regs) ==> Lookup(Bound(regs), n) == Lookup(regs, n)
  {
  }

  lemma SeededAt(cfg: Config, seeds: set<nat>, n: nat)
    ensures Lookup(InitialRegs(cfg, seeds), n) == if n in seeds then Lookup(cfg.initial, n) else Undef
  {
  }
}
