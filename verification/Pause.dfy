/** PAUSE is transparent to a run. */
module Pause {
  import opened Common
  import opened Ir
  import opened Runtime
  import opened Semantics
  import opened Effects
  import opened Invariant
  import opened Simulation
  import opened Gate
  import opened Ids

  /** A sandbox run starts from a state alone: no calls, no operations, no id counters; here also no injections. */
  function Fresh(store: Store): World {
    World(store, [], 0, 0, map[], [])
  }

  // ---------------------------------------------------------------- joining two bodies

  lemma {:induction false} ExecAppend(cfg: Config, a: seq<Stmt>, b: seq<Stmt>, seen: set<nat>, st: St)
    ensures ExecBlock(cfg, a + b, seen, st) ==
            var o := ExecBlock(cfg, a, seen, st);
            if o.flow.Next? then ExecBlock(cfg, b, seen + Dsts(a), o.st) else o
    decreases a
  {
    hide ExecStmt;
    if a == [] {
      assert a + b == b && seen + {} == seen;
    } else {
      assert (a + b)[1..] == a[1..] + b;
      var h := ExecStmt(cfg, a[0], seen, st);
      var seen1 := seen + StmtDsts(a[0]);
      if h.flow.Next? {
        ExecAppend(cfg, a[1..], b, seen1, h.st);
        assert seen1 + Dsts(a[1..]) == seen + Dsts(a);
      }
    }
  }

  /** A run binds destinations of its text only. */
  lemma {:induction false} BlockRegs(cfg: Config, body: seq<Stmt>, seen: set<nat>, st: St)
    ensures ExecBlock(cfg, body, seen, st).st.regs.Keys <= st.regs.Keys + Dsts(body)
    decreases body, 0, 0
  {
    hide ExecStmt;
    hide StmtDsts;
    if body != [] {
      StmtRegs(cfg, body[0], seen, st);
      var o := ExecStmt(cfg, body[0], seen, st);
      if o.flow.Next? { BlockRegs(cfg, body[1..], seen + StmtDsts(body[0]), o.st); }
    }
  }

  lemma {:induction false} StmtRegs(cfg: Config, s: Stmt, seen: set<nat>, st0: St)
    ensures ExecStmt(cfg, s, seen, st0).st.regs.Keys <= st0.regs.Keys + StmtDsts(s)
    decreases s, 0, 0
  {
    hide ExecBlock;
    hide ExecEach;
    hide ExecTry;
    hide EvalFrom;
    hide EvalOp;
    hide SimpleValue;
    hide CallStep;
    hide RunCalls;
    hide BindAll;
    var st := Enter(st0, s.line);
    match s.instr
    case Foreach(src, v, body) =>
      var it := Iterable(Lookup(st.regs, src));
      if it.Ok? { EachRegs(cfg, it.value, v, body, seen + {v}, st); }
    case If(cond, thn, els) =>
      var c := EvalPred(cfg, st.regs, st.w, None, cond);
      BlockRegs(cfg, thn, seen, St(st.regs, c.w));
      if els.Else? { BlockRegs(cfg, els.body, seen + Dsts(thn), St(st.regs, c.w)); }
    case Parallel(calls) =>
      SettledLength(cfg, st.regs, st.w, calls);
      var o := RunCalls(cfg, st.regs, st.w, calls);
      if o.Settled? { BindAllDsts(st.regs, calls, o.vals); }
    case Try(retry, dst, body) =>
      TryRegs(cfg, retry, dst, body, seen + {dst}, St(st.regs[dst := Str("OK")], st.w));
    case _ =>
  }

  lemma {:induction false} BindAllDsts(regs: Regs, calls: seq<CallI>, vals: seq<Value>)
    requires |vals| == |calls|
    ensures BindAll(regs, calls, vals).Keys <= regs.Keys + CallDsts(calls)
    decreases calls
  {
    if calls != [] {
      BindAllDsts(if calls[0].dst.Some? then regs[calls[0].dst.value := vals[0]] else regs, calls[1..], vals[1..]);
    }
  }

  lemma {:induction false} EachRegs(cfg: Config, xs: seq<Value>, v: nat, body: seq<Stmt>, seen: set<nat>, st: St)
    ensures ExecEach(cfg, xs, v, body, seen, st).st.regs.Keys <= st.regs.Keys + {v} + Dsts(body)
    decreases body, 1, |xs|
  {
    hide ExecBlock;
    if xs != [] {
      var st1 := St(st.regs[v := xs[0]], st.w);
      BlockRegs(cfg, body, seen, st1);
      var o := ExecBlock(cfg, body, seen, st1);
      if o.flow.Next? { EachRegs(cfg, xs[1..], v, body, seen, o.st); }
    }
  }

  lemma {:induction false} TryRegs(cfg: Config, left: nat, dst: nat, body: seq<Stmt>, seen: set<nat>, st: St)
    ensures ExecTry(cfg, left, dst, body, seen, st).st.regs.Keys <= st.regs.Keys + {dst} + Dsts(body)
    decreases body, 1, left
  {
    hide ExecBlock;
    BlockRegs(cfg, body, seen, st);
    var o := ExecBlock(cfg, body, seen, st);
    if o.flow.Fail? && o.flow.e.ToolErr? && left > 0 {
      TryRegs(cfg, left - 1, dst, body, seen, St(o.st.regs[dst := Str(o.flow.e.code)], o.st.w));
    }
  }

  /** A PAUSE at top level returns every bound register: its textual list misses none. */
  lemma TopLevelPauseReturnsAll(cfg: Config, a: seq<Stmt>, line: nat, init: set<nat>, st: St)
    requires st.regs.Keys <= init && ExecBlock(cfg, a, init, st).flow.Next?
    ensures var o := ExecBlock(cfg, a, init, st);
            ExecBlock(cfg, a + [At(line, Instr.Pause)], init, st) ==
                Out(Enter(o.st, line), Done(Paused(Bound(o.st.regs))))
  {
    hide ExecBlock;
    var o := ExecBlock(cfg, a, init, st);
    var p := At(line, Instr.Pause);
    ExecAppend(cfg, a, [p], init, st);
    BlockRegs(cfg, a, init, st);
    var seen := init + Dsts(a);
    LonePause(cfg, p, seen, o.st);
    assert PauseRegs(o.st.regs, seen) == Bound(o.st.regs);
  }

  lemma LonePause(cfg: Config, p: Stmt, seen: set<nat>, st: St)
    requires p.instr.Pause?
    ensures ExecBlock(cfg, [p], seen, st) == Out(Enter(st, p.line), Done(Paused(PauseRegs(st.regs, seen))))
  {
    assert [p][1..] == [];
  }

  // ---------------------------------------------------------------- what a set of tools can do to ids

  /** The run can get a call of this tool past the gate. */
  predicate Open(cfg: Config, sym: string) {
    sym in cfg.tools && !Gates(cfg, sym)
  }

  /** The entities the tools create in. */
  function Makes(cfg: Config, syms: set<string>): set<string> {
    set sym | sym in syms && Open(cfg, sym) && cfg.tools[sym].impl.Create? :: cfg.tools[sym].impl.entity
  }

  /** The tool deletes records of `e` it is given. */
  predicate Erases(tool: Tool, e: string) {
    tool.impl.Delete? && tool.impl.entity == e && tool.impl.idParam < |tool.params|
  }

  /** The entities among `made` whose id counter is in use. */
  function Held(made: set<string>, w: World): set<string> {
    made * w.counters.Keys
  }

  /** The tool cannot lower the largest id suffix among the rows of a held entity. */
  ghost predicate Calm(cfg: Config, tool: Tool, held: set<string>) {
    match tool.impl
    case Delete(e, _) => e in held ==> !Erases(tool, e)
    case Update(e, _, _, _) => e in held ==> SafeImpl(tool.impl)
    case Foreign(name) =>
      forall store, params, e | e in held ::
          MaxSuffix(Rows(cfg.foreign(name, store, params).0, e)) == MaxSuffix(Rows(store, e))
    case _ => true
  }

  /** A continuation recomputes its counters from live rows; it gets the ones it had if each held counter is the largest
      suffix left. */
  ghost predicate Tight(held: set<string>, w: World) {
    forall e | e in held :: e in w.counters && w.counters[e] == MaxSuffix(Rows(w.store, e))
  }

  // ---------------------------------------------------------------- the relation between the two runs

  /** `w1` is the joined run's world, `w2` the continuation's: same state, the log apart from what came before, budgets
      `k` apart; where the continuation creates, a counter it has not yet recomputed is one its live rows would give
      it. */
  ghost predicate Related(base: seq<CallEntry>, k: nat, made: set<string>, held: set<string>, w1: World, w2: World) {
    && w1.store == w2.store && w1.calls == base + w2.calls && w1.ops == w2.ops + k
    && w1.injections == [] && w2.injections == []
    && (forall e | e in made && e in w2.counters :: e in w1.counters && w1.counters[e] == w2.counters[e])
    && (forall e | e in made && e in w1.counters && e !in w2.counters ::
        e in held && w1.counters[e] == MaxSuffix(Rows(w1.store, e)))
  }

  ghost function Resumed(base: seq<CallEntry>, k: nat, made: set<string>, held: set<string>): Rel {
    (w1: World, w2: World) => Related(base, k, made, held, w1, w2)
  }

  lemma {:induction false} SameIdsSameSuffix(a: seq<Value>, b: seq<Value>)
    requires |a| == |b| && forall i | 0 <= i < |a| :: RecId(a[i]) == RecId(b[i])
    ensures MaxSuffix(a) == MaxSuffix(b)
    decreases a
  {
    hide IdSuffix;
    hide RecId;
    if a != [] {
      var n := |a| - 1;
      assert forall i | 0 <= i < n :: a[..n][i] == a[i] && b[..n][i] == b[i];
      SameIdsSameSuffix(a[..n], b[..n]);
    }
  }

  /** Removing a record never raises the largest suffix, and one without a suffix never lowers it. */
  lemma {:induction false} RemovalSuffix(rows: seq<Value>, i: nat)
    requires i < |rows|
    ensures MaxSuffix(rows[..i] + rows[i + 1..]) <= MaxSuffix(rows)
    ensures IdSuffix(RecId(rows[i])).None? ==> MaxSuffix(rows[..i] + rows[i + 1..]) == MaxSuffix(rows)
    decreases rows
  {
    hide IdSuffix;
    hide RecId;
    var n := |rows| - 1;
    if i == n {
      assert rows[..i] + rows[i + 1..] == rows[..n];
    } else {
      var out := rows[..i] + rows[i + 1..];
      assert out[..|out| - 1] == rows[..n][..i] + rows[..n][i + 1..];
      assert out[|out| - 1] == rows[n];
      RemovalSuffix(rows[..n], i);
    }
  }

  ghost predicate SameEffect(base: seq<CallEntry>, k: nat, made: set<string>, held: set<string>, w1: World, w2: World,
                             a: ImplOut, b: ImplOut) {
    a.r == b.r && Related(base, k, made, held, w1.(store := a.store, counters := a.counters),
                          w2.(store := b.store, counters := b.counters))
  }

  lemma CreateRelated(cfg: Config, base: seq<CallEntry>, k: nat, made: set<string>, held: set<string>, w1: World,
                      w2: World, impl: Impl, params: seq<Value>)
    requires impl.Create? && impl.entity in made && Related(base, k, made, held, w1, w2)
    ensures SameEffect(base, k, made, held, w1, w2, RunImpl(cfg, impl, w1.store, w1.counters, params),
                       RunImpl(cfg, impl, w2.store, w2.counters, params))
  {
    hide Created;
    hide MaxSuffix;
    assert Counter(w1.store, w1.counters, impl.entity) == Counter(w2.store, w2.counters, impl.entity);
    hide Counter;
  }

  lemma UpdateRelated(cfg: Config, base: seq<CallEntry>, k: nat, made: set<string>, held: set<string>, w1: World,
                      w2: World, tool: Tool, params: seq<Value>)
    requires tool.impl.Update? && Calm(cfg, tool, held) && Related(base, k, made, held, w1, w2)
    ensures SameEffect(base, k, made, held, w1, w2, RunImpl(cfg, tool.impl, w1.store, w1.counters, params),
                       RunImpl(cfg, tool.impl, w2.store, w2.counters, params))
  {
    hide Updated;
    hide MaxSuffix;
    hide RecId;
    hide SafeImpl;
    hide FindIndex;
    var e := tool.impl.entity;
    var rows := Rows(w1.store, e);
    var i := FindIndex(rows, ParamAt(params, tool.impl.idParam));
    if i < |rows| && e in held {
      UpdatedKeepsId(tool.impl, rows[i], params);
      var out := rows[i := Updated(tool.impl, rows[i], params)];
      assert forall j | 0 <= j < |rows| :: RecId(out[j]) == RecId(rows[j]);
      SameIdsSameSuffix(rows, out);
    }
  }

  lemma DeleteRelated(cfg: Config, base: seq<CallEntry>, k: nat, made: set<string>, held: set<string>, w1: World,
                      w2: World, tool: Tool, params: seq<Value>)
    requires tool.impl.Delete? && |params| == |tool.params| && Calm(cfg, tool, held) &&
             Related(base, k, made, held, w1, w2)
    ensures SameEffect(base, k, made, held, w1, w2, RunImpl(cfg, tool.impl, w1.store, w1.counters, params),
                       RunImpl(cfg, tool.impl, w2.store, w2.counters, params))
  {
    hide MaxSuffix;
    hide RecId;
    hide FindIndex;
    var e := tool.impl.entity;
    var rows := Rows(w1.store, e);
    var i := FindIndex(rows, ParamAt(params, tool.impl.idParam));
    if i < |rows| && e in held {
      assert RecId(rows[i]) == Undef;
      RemovalSuffix(rows, i);
    }
  }

  lemma ForeignRelated(cfg: Config, base: seq<CallEntry>, k: nat, made: set<string>, held: set<string>, w1: World,
                       w2: World, tool: Tool, params: seq<Value>)
    requires tool.impl.Foreign? && Calm(cfg, tool, held) && Related(base, k, made, held, w1, w2)
    ensures SameEffect(base, k, made, held, w1, w2, RunImpl(cfg, tool.impl, w1.store, w1.counters, params),
                       RunImpl(cfg, tool.impl, w2.store, w2.counters, params))
  {
    hide MaxSuffix;
    hide Rows;
  }

  lemma ImplRelated(cfg: Config, base: seq<CallEntry>, k: nat, made: set<string>, held: set<string>, w1: World,
                    w2: World, tool: Tool, params: seq<Value>)
    requires |params| == |tool.params| && Calm(cfg, tool, held) && Related(base, k, made, held, w1, w2)
    requires tool.impl.Create? ==> tool.impl.entity in made
    ensures SameEffect(base, k, made, held, w1, w2, RunImpl(cfg, tool.impl, w1.store, w1.counters, params),
                       RunImpl(cfg, tool.impl, w2.store, w2.counters, params))
  {
    hide MaxSuffix;
    hide Mapped;
    hide KeepWhere;
    hide FindIndex;
    if tool.impl.Create? {
      CreateRelated(cfg, base, k, made, held, w1, w2, tool.impl, params);
    } else if tool.impl.Update? {
      UpdateRelated(cfg, base, k, made, held, w1, w2, tool, params);
    } else if tool.impl.Delete? {
      DeleteRelated(cfg, base, k, made, held, w1, w2, tool, params);
    } else if tool.impl.Foreign? {
      ForeignRelated(cfg, base, k, made, held, w1, w2, tool, params);
    } else {
      hide Updated;
      hide Created;
    }
  }

  lemma {:induction false} NarrowedLength(params: seq<ToolParam>, args: seq<Value>, i: nat)
    requires i <= |params|
    ensures var r := Narrowed(params, args, i); r.Ok? ==> |r.value| == |params| - i
    decreases |params| - i
  {
    if i < |params| { NarrowedLength(params, args, i + 1); }
  }

  lemma DispatchRelated(cfg1: Config, cfg2: Config, base: seq<CallEntry>, k: nat, made: set<string>, held: set<string>,
                        w1: World, w2: World, sym: string, params: seq<Value>)
    requires cfg2 == cfg1.(initial := cfg2.initial) && Related(base, k, made, held, w1, w2)
    requires Open(cfg1, sym) && Calm(cfg1, cfg1.tools[sym], held) && Makes(cfg1, {sym}) <= made
    requires |params| == |cfg1.tools[sym].params|
    ensures var a, b := Dispatch(cfg1, w1, sym, cfg1.tools[sym], params),
            Dispatch(cfg2, w2, sym, cfg1.tools[sym], params);
            Related(base, k, made, held, a.w, b.w) && a.r == b.r
  {
    hide RunImpl;
    hide MaxSuffix;
    hide Calm;
    var tool := cfg1.tools[sym];
    assert tool.impl.Create? ==> tool.impl.entity in Makes(cfg1, {sym});
    hide Makes;
    ImplRelated(cfg1, base, k, made, held, w1, w2, tool, params);
    ImplAlike(cfg1, cfg2, tool.impl, w2.store, w2.counters, params);
    var a, b := RunImpl(cfg1, tool.impl, w1.store, w1.counters, params),
        RunImpl(cfg1, tool.impl, w2.store, w2.counters, params);
    LoggedRelated(base, k, made, held, w1.(store := a.store, counters := a.counters),
                  w2.(store := b.store, counters := b.counters), sym, tool.name, params, a.r);
  }

  lemma CallRelated(cfg1: Config, cfg2: Config, base: seq<CallEntry>, k: nat, made: set<string>, held: set<string>,
                    w1: World, w2: World, sym: string, args: seq<Value>)
    requires cfg2 == cfg1.(initial := cfg2.initial) && Related(base, k, made, held, w1, w2)
    requires Open(cfg1, sym) ==> Calm(cfg1, cfg1.tools[sym], held) && Makes(cfg1, {sym}) <= made
    ensures StepRel(Resumed(base, k, made, held), Some(cfg1.maxOps), RtCall(cfg1, w1, sym, args),
                    RtCall(cfg2, w2, sym, args))
  {
    hide Narrowed;
    hide MaxSuffix;
    hide Calm;
    hide Makes;
    hide Dispatch;
    assert Related(base, k, made, held, Tick(w1), Tick(w2));
    if !OverBudget(cfg1, w1) && Open(cfg1, sym) && Narrowed(cfg1.tools[sym].params, args, 0).Ok? {
      NarrowedLength(cfg1.tools[sym].params, args, 0);
      DispatchRelated(cfg1, cfg2, base, k, made, held, Tick(w1), Tick(w2), sym,
                      Narrowed(cfg1.tools[sym].params, args, 0).value);
    }
  }

  lemma LoggedRelated(base: seq<CallEntry>, k: nat, made: set<string>, held: set<string>, w1: World, w2: World,
                      sym: string, name: string, params: seq<Value>, r: Result)
    requires Related(base, k, made, held, w1, w2)
    ensures Related(base, k, made, held, Logged(w1, sym, name, params, r), Logged(w2, sym, name, params, r))
  {
    hide MaxSuffix;
    hide ErrorText;
    var c := [CallEntry(sym, name, params, r.Ok?, if r.Ok? then "" else ErrorText(r.error))];
    assert base + w2.calls + c == base + (w2.calls + c);
  }

  /** No open tool of `syms` can lower a held suffix. */
  ghost predicate AllCalm(cfg: Config, syms: set<string>, held: set<string>) {
    forall sym | sym in syms && Open(cfg, sym) :: Calm(cfg, cfg.tools[sym], held)
  }

  lemma ResumedSimulates(cfg1: Config, cfg2: Config, base: seq<CallEntry>, k: nat, made: set<string>, held: set<string>,
                         syms: set<string>)
    requires cfg2 == cfg1.(initial := cfg2.initial) && made == Makes(cfg1, syms) && AllCalm(cfg1, syms, held)
    ensures Simulates(cfg1, cfg2, Resumed(base, k, made, held), Some(cfg1.maxOps), syms)
  {
    hide RtCall;
    hide MaxSuffix;
    hide Calm;
    hide Open;
    forall w1, w2 | Resumed(base, k, made, held)(w1, w2)
      ensures Related(base, k, made, held, Tick(w1), Tick(w2))
      ensures forall l: nat :: Related(base, k, made, held, MarkLine(w1, l), MarkLine(w2, l))
    {
    }
    forall w1, w2, sym, args | Resumed(base, k, made, held)(w1, w2) && sym in syms
      ensures StepRel(Resumed(base, k, made, held), Some(cfg1.maxOps), RtCall(cfg1, w1, sym, args),
                      RtCall(cfg2, w2, sym, args))
    {
      CallRelated(cfg1, cfg2, base, k, made, held, w1, w2, sym, args);
    }
  }

  // ---------------------------------------------------------------- resuming

  /** What the harness hands the continuation: the returned registers its pause environment types. */
  function Seeds(registers: Regs, pauseEnv: set<nat>): set<nat> {
    registers.Keys * pauseEnv
  }

  /** The sandbox of the continuation. */
  function Reseeded(cfg: Config, regs: Regs): Config {
    cfg.(initial := Bound(regs))
  }

  /** Going on from `st` and starting afresh from its state and registers meet: same final state, same further calls,
      agreeing registers, the same end. */
  ghost predicate Meets(before: World, straight: Out, resumed: Out) {
    && straight.st.w.store == resumed.st.w.store
    && straight.st.w.calls == before.calls + resumed.st.w.calls
    && straight.st.w.ops == before.ops + resumed.st.w.ops
    && RegsRel(false, straight.st.regs, resumed.st.regs)
    && FlowRel(false, straight.flow, resumed.flow)
  }

  function Straight(cfg: Config, b: seq<Stmt>, seen: set<nat>, st: St): Out {
    ExecBlock(cfg, b, seen, st)
  }

  function Restarted(cfg: Config, b: seq<Stmt>, st: St): Out {
    var cfg2, seeds := Reseeded(cfg, st.regs), Bound(st.regs).Keys;
    ExecBlock(cfg2, b, seeds, St(InitialRegs(cfg2, seeds), Fresh(st.w.store)))
  }

  /** Where its counters are tight and its tools calm, a block may be started afresh. */
  lemma ResumesAlike(cfg: Config, b: seq<Stmt>, seen: set<nat>, st: St)
    requires st.w.injections == []
    requires var held := Held(Makes(cfg, Symbols(b)), st.w); Tight(held, st.w) && AllCalm(cfg, Symbols(b), held)
    requires Straight(cfg, b, seen, st).st.w.ops <= cfg.maxOps
    ensures Meets(st.w, Straight(cfg, b, seen, st), Restarted(cfg, b, st))
  {
    hide ExecBlock;
    hide Symbols;
    hide Makes;
    hide MaxSuffix;
    hide AllCalm;
    var w := st.w;
    var cfg2, seeds := Reseeded(cfg, st.regs), Bound(st.regs).Keys;
    var made := Makes(cfg, Symbols(b));
    var held := Held(made, w);
    ResumedSimulates(cfg, cfg2, w.calls, w.ops, made, held, Symbols(b));
    hide Simulates;
    var s2 := St(InitialRegs(cfg2, seeds), Fresh(w.store));
    assert RegsRel(false, st.regs, s2.regs) by { SeedsAgree(st.regs, cfg2, seeds); }
    assert Related(w.calls, w.ops, made, held, w, s2.w);
    hide Related;
    SymbolsWithin(b);
    BlockSim(cfg, cfg2, Resumed(w.calls, w.ops, made, held), Some(cfg.maxOps), Symbols(b), false, b, seen, seeds, st,
             s2);
    RelatedEnds(w.calls, w.ops, made, held, ExecBlock(cfg, b, seen, st).st.w, ExecBlock(cfg2, b, seeds, s2).st.w);
  }

  lemma RelatedEnds(base: seq<CallEntry>, k: nat, made: set<string>, held: set<string>, w1: World, w2: World)
    ensures Resumed(base, k, made, held)(w1, w2) ==>
            w1.store == w2.store && w1.calls == base + w2.calls && w1.ops == w2.ops + k
  {
  }

  lemma SeedsAgree(regs: Regs, cfg2: Config, seeds: set<nat>)
    requires cfg2.initial == Bound(regs) && seeds == Bound(regs).Keys
    ensures RegsRel(false, regs, InitialRegs(cfg2, seeds))
  {
  }

  // ---------------------------------------------------------------- the theorem

  /** The conditions under which the harness can split a run at a PAUSE. `first` is the first segment's end just before
      its PAUSE. Nothing is asked of the first segment's tools, and of the continuation's only where it creates
      records. */
  ghost predicate Splittable(cfg: Config, b: seq<Stmt>, pauseEnv: set<nat>, first: Out) {
    && first.flow.Next?
    && (var held := Held(Makes(cfg, Symbols(b)), first.st.w); Tight(held, first.st.w) && AllCalm(cfg, Symbols(b), held))
    && Bound(first.st.regs).Keys <= pauseEnv
  }

  /** Segment, PAUSE, continuation: the same final state and the same calls as one run of both bodies, ending the same
      way. Assumed: no injections, the joined run stays within its operation budget, the pause environment types every
      returned register, and, for each entity the continuation creates in and the segment created in, the newest suffix
      is still live at the PAUSE and the continuation's tools do not lower it. */
  lemma PauseTransparent(cfg: Config, a: seq<Stmt>, line: nat, b: seq<Stmt>, init: set<nat>, pauseEnv: set<nat>,
                         store: Store)
    requires Splittable(cfg, b, pauseEnv, ExecBlock(cfg, a, init, St(InitialRegs(cfg, init), Fresh(store))))
    requires RunBody(cfg, a + b, init, Fresh(store)).st.w.ops <= cfg.maxOps
    ensures var seg1 := RunBody(cfg, a + [At(line, Instr.Pause)], init, Fresh(store));
            && seg1.flow.Done? && seg1.flow.m.Paused?
            && var regs := seg1.flow.m.regs;
               var seg2 := RunBody(cfg.(initial := regs), b, Seeds(regs, pauseEnv), Fresh(seg1.st.w.store));
               var whole := RunBody(cfg, a + b, init, Fresh(store));
               && whole.st.w.store == seg2.st.w.store
               && whole.st.w.calls == seg1.st.w.calls + seg2.st.w.calls
               && seg2.st.w.ops <= whole.st.w.ops
               && RegsRel(false, whole.st.regs, seg2.st.regs)
               && FlowRel(false, whole.flow, seg2.flow)
  {
    hide ExecBlock;
    hide Symbols;
    hide Makes;
    hide Tight;
    hide AllCalm;
    hide InitialRegs;
    var st := St(InitialRegs(cfg, init), Fresh(store));
    var first := ExecBlock(cfg, a, init, st);
    assert st.regs.Keys == init by { SeededKeys(cfg, init); }
    TopLevelPauseReturnsAll(cfg, a, line, init, st);
    ExecAppend(cfg, a, b, init, st);
    NoInjections(cfg, a, init, st);
    assert Seeds(Bound(first.st.regs), pauseEnv) == Bound(first.st.regs).Keys;
    ResumesAlike(cfg, b, init + Dsts(a), first.st);
  }

  lemma SeededKeys(cfg: Config, init: set<nat>)
    ensures InitialRegs(cfg, init).Keys == init
  {
  }

  ghost function CleanInv(): Inv {
    (w: World) => w.injections == []
  }

  lemma NoInjections(cfg: Config, a: seq<Stmt>, init: set<nat>, st: St)
    requires st.w.injections == []
    ensures ExecBlock(cfg, a, init, st).st.w.injections == []
  {
    hide ExecBlock;
    hide Symbols;
    SymbolsWithin(a);
    assert Stable(cfg, CleanInv(), AnyExn(), Symbols(a)) by {
      hide RunImpl;
      hide Narrowed;
    }
    hide Stable;
    BlockKeeps(cfg, CleanInv(), AnyExn(), Symbols(a), a, init, st);
  }

  /** If both bodies go on to a PAUSE of their own, both hand back the same registers. */
  lemma PauseAfterPause(cfg: Config, b: seq<Stmt>, line: nat, seen: set<nat>, st: St)
    requires st.w.injections == [] && st.regs.Keys <= seen
    requires var held := Held(Makes(cfg, Symbols(b)), st.w); Tight(held, st.w) && AllCalm(cfg, Symbols(b), held)
    requires Straight(cfg, b, seen, st).st.w.ops <= cfg.maxOps && Straight(cfg, b, seen, st).flow.Next?
    ensures var p := b + [At(line, Instr.Pause)];
            var straight, resumed := Straight(cfg, p, seen, st), Restarted(cfg, p, st);
            && straight.flow == resumed.flow == Done(Paused(Bound(straight.st.regs)))
            && straight.st.w.store == resumed.st.w.store && straight.st.w.calls == st.w.calls + resumed.st.w.calls
  {
    hide ExecBlock;
    hide Symbols;
    hide Makes;
    hide Tight;
    hide AllCalm;
    hide InitialRegs;
    ResumesAlike(cfg, b, seen, st);
    var cfg2, seeds := Reseeded(cfg, st.regs), Bound(st.regs).Keys;
    SeededKeys(cfg2, seeds);
    TopLevelPauseReturnsAll(cfg, b, line, seen, st);
    TopLevelPauseReturnsAll(cfg2, b, line, seeds, St(InitialRegs(cfg2, seeds), Fresh(st.w.store)));
    SameBound(Straight(cfg, b, seen, st).st.regs, Restarted(cfg, b, st).st.regs);
  }

  lemma SameBound(a: Regs, b: Regs)
    requires RegsRel(false, a, b)
    ensures Bound(a) == Bound(b)
  {
    forall n: nat
      ensures n in Bound(a) <==> n in Bound(b)
      ensures n in Bound(a) ==> Bound(a)[n] == Bound(b)[n]
    {
      assert Lookup(a, n) == Lookup(b, n);
    }
  }

  // ---------------------------------------------------------------- a live newest record keeps its counter tight

  /** No live id outruns a counter in use. */
  ghost predicate SuffixesBounded(w: World) {
    forall e | e in w.counters :: MaxSuffix(Rows(w.store, e)) <= w.counters[e]
  }

  lemma {:induction false} MaxSuffixAtLeast(rows: seq<Value>, i: nat, k: nat)
    requires i < |rows| && IdSuffix(RecId(rows[i])) == Some(k)
    ensures MaxSuffix(rows) >= k
    decreases rows
  {
    hide IdSuffix;
    hide RecId;
    var n := |rows| - 1;
    if i < n { MaxSuffixAtLeast(rows[..n], i, k); }
  }

  lemma AppendSuffix(rows: seq<Value>, rec: Value, n: nat)
    requires IdSuffix(RecId(rec)) == Some(n)
    ensures MaxSuffix(rows + [rec]) == if n > MaxSuffix(rows) then n else MaxSuffix(rows)
  {
    hide IdSuffix;
    hide RecId;
    assert (rows + [rec])[..|rows|] == rows;
  }

  lemma ImplBounded(cfg: Config, w: World, impl: Impl, params: seq<Value>)
    requires SafeTool(cfg, impl) && SuffixesBounded(w)
    ensures var o := RunImpl(cfg, impl, w.store, w.counters, params);
            SuffixesBounded(w.(store := o.store, counters := o.counters))
  {
    hide MaxSuffix;
    hide Mapped;
    hide KeepWhere;
    hide FindIndex;
    hide Updated;
    hide Created;
    hide IdSuffix;
    hide RecId;
    match impl
    case Create(e, _, _) =>
      var n := Counter(w.store, w.counters, e) + 1;
      CreatedHasId(cfg, impl, n, params);
      SuffixOfId(e, n);
      AppendSuffix(Rows(w.store, e), Created(cfg, impl, n, params), n);
    case Update(e, ip, _, _) =>
      var rows := Rows(w.store, e);
      var i := FindIndex(rows, ParamAt(params, ip));
      if i < |rows| {
        UpdatedKeepsId(impl, rows[i], params);
        var out := rows[i := Updated(impl, rows[i], params)];
        assert forall j | 0 <= j < |rows| :: RecId(out[j]) == RecId(rows[j]);
        SameIdsSameSuffix(rows, out);
      }
    case Delete(e, ip) =>
      var i := FindIndex(Rows(w.store, e), ParamAt(params, ip));
      if i < |Rows(w.store, e)| { RemovalSuffix(Rows(w.store, e), i); }
    case Foreign(name) => assert cfg.foreign(name, w.store, params).0.entities == w.store.entities;
    case _ =>
  }

  ghost function BoundedInv(): Inv {
    (w: World) => SuffixesBounded(w)
  }

  lemma BoundedStable(cfg: Config, syms: set<string>)
    requires SafeTools(cfg, syms)
    ensures Stable(cfg, BoundedInv(), AnyExn(), syms)
  {
    hide SuffixesBounded;
    hide RtCall;
    hide SafeTool;
    forall w | SuffixesBounded(w)
      ensures SuffixesBounded(Tick(w))
    {
      SameStoreBounded(w, Tick(w));
    }
    forall w, l: nat | SuffixesBounded(w)
      ensures SuffixesBounded(MarkLine(w, l))
    {
      SameStoreBounded(w, MarkLine(w, l));
    }
    forall w, sym, args | SuffixesBounded(w) && sym in syms
      ensures StepOk(BoundedInv(), AnyExn(), RtCall(cfg, w, sym, args))
    {
      CallBounded(cfg, w, sym, args);
    }
  }

  lemma SameStoreBounded(a: World, b: World)
    requires SuffixesBounded(a) && a.store == b.store && a.counters == b.counters
    ensures SuffixesBounded(b)
  {
  }

  lemma CallBounded(cfg: Config, w: World, sym: string, args: seq<Value>)
    requires SuffixesBounded(w) && (sym in cfg.tools ==> SafeTool(cfg, cfg.tools[sym].impl))
    ensures SuffixesBounded(RtCall(cfg, w, sym, args).w)
  {
    hide MaxSuffix;
    hide Narrowed;
    hide RunImpl;
    hide Inject;
    hide SafeTool;
    if sym in cfg.tools && Narrowed(cfg.tools[sym].params, args, 0).Ok? {
      ImplBounded(cfg, w, cfg.tools[sym].impl, Narrowed(cfg.tools[sym].params, args, 0).value);
    }
  }

  /** The record of `e` the run created last is still there. */
  ghost predicate NewestAlive(w: World, e: string) {
    e in w.counters && OneLine(e) && exists i ::
        0 <= i < |Rows(w.store, e)| && RecId(Rows(w.store, e)[i]) == IdOf(e, w.counters[e])
  }

  /** After a segment whose tools leave ids alone, a counter is tight wherever the newest record created is still
      alive. */
  lemma NewestAliveTight(cfg: Config, a: seq<Stmt>, init: set<nat>, store: Store, held: set<string>)
    requires SafeTools(cfg, Symbols(a))
    requires var w := ExecBlock(cfg, a, init, St(InitialRegs(cfg, init), Fresh(store))).st.w;
             forall e | e in held :: NewestAlive(w, e)
    ensures Tight(held, ExecBlock(cfg, a, init, St(InitialRegs(cfg, init), Fresh(store))).st.w)
  {
    hide ExecBlock;
    hide MaxSuffix;
    hide IdSuffix;
    hide RecId;
    hide Symbols;
    hide SafeTools;
    var st := St(InitialRegs(cfg, init), Fresh(store));
    var w := ExecBlock(cfg, a, init, st).st.w;
    SymbolsWithin(a);
    BoundedStable(cfg, Symbols(a));
    hide Stable;
    BlockKeeps(cfg, BoundedInv(), AnyExn(), Symbols(a), a, init, st);
    forall e | e in held
      ensures e in w.counters && w.counters[e] == MaxSuffix(Rows(w.store, e))
    {
      assert NewestAlive(w, e);
      var i :| 0 <= i < |Rows(w.store, e)| && RecId(Rows(w.store, e)[i]) == IdOf(e, w.counters[e]);
      SuffixOfId(e, w.counters[e]);
      MaxSuffixAtLeast(Rows(w.store, e), i, w.counters[e]);
    }
  }
}
