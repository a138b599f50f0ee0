/** The effect gate over whole runs. */
module Gate {
  import opened Common
  import opened Ir
  import opened Runtime
  import opened Semantics
  import opened Effects
  import opened Invariant
  import opened Simulation

  // ---------------------------------------------------------------- the report of a run

  datatype Change = Change(tool: string, name: string, args: seq<Value>, effect: Effect)

  datatype Status = StatusOk | StatusPaused | StatusAborted | StatusError | StatusBlocked

  /** `code`, and for a gated preview the full list of changes. */
  datatype RunError = RunError(code: string, calls: seq<Change>)

  datatype Report = Report(status: Status, value: Value, regs: Regs, reason: string, refs: seq<string>,
                           error: Option<RunError>, w: World)

  /** What a logged call changed, if it changed anything; `irreversible` wins over `mutates`. */
  function ChangeOf(cfg: Config, c: CallEntry): Option<Effect> {
    if !c.ok || c.tool !in cfg.tools then None
    else if Irreversible in cfg.tools[c.tool].effects then Some(Irreversible)
    else if Mutates in cfg.tools[c.tool].effects then Some(Mutates)
    else None
  }

  function Consequences(cfg: Config, calls: seq<CallEntry>): seq<Change> {
    if calls == [] then []
    else
      var last := calls[|calls| - 1];
      var e := ChangeOf(cfg, last);
      Consequences(cfg, calls[..|calls| - 1]) +
      (if e.Some? then [Change(last.tool, last.name, last.args, e.value)] else [])
  }

  /** The first change that is not a plain `mutates`, else a bulk overflow. */
  function Verdict(cfg: Config, changes: seq<Change>): Option<string> {
    if exists i | 0 <= i < |changes| :: changes[i].effect != Mutates then Some("DESTRUCTIVE")
    else if cfg.bulkLimit.Some? && |changes| > cfg.bulkLimit.value then Some("BULK_WRITE")
    else None
  }

  function Bound(regs: Regs): Regs {
    map n | n in regs && !regs[n].Undef? :: regs[n]
  }

  /** The marker or exception as a result, before the preview gate. */
  function Base(o: Out): Report {
    var r := Report(StatusOk, Nil, map[], "", [], None, o.st.w);
    match o.flow
    case Next => r
    case Done(Returned(v)) => r.(value := v)
    case Done(Stopped) => r
    case Done(Aborted(reason, refs)) => r.(status := StatusAborted, reason := reason, refs := refs)
    case Done(Paused(regs)) => r.(status := StatusPaused, regs := regs)
    case Fail(Blocked(_, _)) =>
      r.(status := StatusBlocked, regs := Bound(o.st.regs), error := Some(RunError("EFFECT_BLOCKED", [])))
    case Fail(ToolErr(code)) => r.(status := StatusError, regs := Bound(o.st.regs), error := Some(RunError(code, [])))
    case Fail(JsErr(_)) => r.(status := StatusError, regs := Bound(o.st.regs), error := Some(RunError("JS_ERROR", [])))
  }

  function Finish(cfg: Config, r: Report): Report {
    if cfg.preview && !cfg.approval && (r.status.StatusOk? || r.status.StatusPaused?) then
      var changes := Consequences(cfg, r.w.calls);
      match Verdict(cfg, changes)
      case None => r
      case Some(code) => Report(StatusBlocked, Nil, map[], "", [], Some(RunError(code, changes)), r.w)
    else r
  }

  function RunReport(cfg: Config, body: seq<Stmt>, init: set<nat>, w: World): Report {
    Finish(cfg, Base(RunBody(cfg, body, init, w)))
  }

  // ---------------------------------------------------------------- what a list of changes is

  /** A successful call of a tool that mutates or is irreversible. */
  predicate Changes(cfg: Config, c: CallEntry) {
    c.ok && c.tool in cfg.tools && (Mutates in cfg.tools[c.tool].effects || Irreversible in cfg.tools[c.tool].effects)
  }

  /** The property the list gives for it. */
  function Property(cfg: Config, c: CallEntry): Effect
    requires Changes(cfg, c)
  {
    if Irreversible in cfg.tools[c.tool].effects then Irreversible else Mutates
  }

  lemma ChangeExactly(cfg: Config, c: CallEntry)
    ensures ChangeOf(cfg, c) == if Changes(cfg, c) then Some(Property(cfg, c)) else None
  {
  }

  /** Positions of the log whose call changed something, in order. */
  ghost predicate ChangeIndices(cfg: Config, calls: seq<CallEntry>, idx: seq<nat>) {
    && (forall k | 0 <= k < |idx| :: idx[k] < |calls| && Changes(cfg, calls[idx[k]]))
    && (forall j, k | 0 <= j < k < |idx| :: idx[j] < idx[k])
    && (forall i | 0 <= i < |calls| && Changes(cfg, calls[i]) :: i in idx)
  }

  /** `consequences` lists exactly the successful changing calls, each once, in call order, with its property. */
  lemma {:induction false} ConsequencesExact(cfg: Config, calls: seq<CallEntry>) returns (idx: seq<nat>)
    ensures ChangeIndices(cfg, calls, idx)
    ensures var cs := Consequences(cfg, calls);
            |cs| == |idx| && forall k | 0 <= k < |idx| ::
              var c := calls[idx[k]]; cs[k] == Change(c.tool, c.name, c.args, Property(cfg, c))
    decreases calls
  {
    hide ChangeOf;
    hide Changes;
    hide Property;
    idx := [];
    if calls != [] {
      var n := |calls| - 1;
      ChangeExactly(cfg, calls[n]);
      idx := ConsequencesExact(cfg, calls[..n]);
      var cs := Consequences(cfg, calls[..n]);
      if Changes(cfg, calls[n]) {
        var idx' := idx + [n];
        assert Consequences(cfg, calls) == cs + [Change(calls[n].tool, calls[n].name, calls[n].args,
                                                        Property(cfg, calls[n]))];
        forall i | 0 <= i < |calls| && Changes(cfg, calls[i])
          ensures i in idx'
        {
          if i < n { assert calls[..n][i] == calls[i]; } else { assert idx'[|idx|] == n; }
        }
        idx := idx';
      } else {
        forall i | 0 <= i < |calls| && Changes(cfg, calls[i])
          ensures i in idx
        {
          assert i != n;
          assert calls[..n][i] == calls[i];
        }
        assert Consequences(cfg, calls) == cs;
      }
    }
  }

  /** A successful irreversible call is in the log. */
  predicate Destroys(cfg: Config, calls: seq<CallEntry>) {
    exists i | 0 <= i < |calls| :: calls[i].ok && IsIrreversible(cfg, calls[i].tool)
  }

  /** The gate's verdict in terms of the log itself. */
  lemma VerdictExact(cfg: Config, calls: seq<CallEntry>)
    ensures var changes := Consequences(cfg, calls); var v := Verdict(cfg, changes);
            && (v == Some("DESTRUCTIVE") <==> Destroys(cfg, calls))
            && (v == Some("BULK_WRITE") <==>
                !Destroys(cfg, calls) && cfg.bulkLimit.Some? && |changes| > cfg.bulkLimit.value)
            && (v.None? || v == Some("DESTRUCTIVE") || v == Some("BULK_WRITE"))
  {
    hide Consequences;
    var idx := ConsequencesExact(cfg, calls);
    var cs := Consequences(cfg, calls);
    if Destroys(cfg, calls) {
      var i :| 0 <= i < |calls| && calls[i].ok && IsIrreversible(cfg, calls[i].tool);
      assert Changes(cfg, calls[i]);
      var k :| 0 <= k < |idx| && idx[k] == i;
      assert cs[k].effect != Mutates;
    }
    if exists k | 0 <= k < |cs| :: cs[k].effect != Mutates {
      var k :| 0 <= k < |cs| && cs[k].effect != Mutates;
      assert calls[idx[k]].ok && IsIrreversible(cfg, calls[idx[k]].tool);
    }
  }

  // ---------------------------------------------------------------- runs that differ only in their flags

  function SameWorld(): Rel {
    (a: World, b: World) => a == b
  }

  lemma {:induction false} ImplAlike(cfg1: Config, cfg2: Config, impl: Impl, store: Store, counters: map<string, nat>,
                                     params: seq<Value>)
    requires SameHost(cfg1, cfg2)
    ensures RunImpl(cfg1, impl, store, counters, params) == RunImpl(cfg2, impl, store, counters, params)
  {
    hide Applied;
    hide WithParams;
    hide WithConsts;
    hide WithSetParams;
    hide Counter;
    hide FindIndex;
    hide KeepWhere;
    hide Mapped;
  }

  lemma CallAlike(cfg1: Config, cfg2: Config, w: World, sym: string, args: seq<Value>)
    requires SameHost(cfg1, cfg2) && cfg1.maxOps == cfg2.maxOps && Gates(cfg1, sym) == Gates(cfg2, sym)
    ensures RtCall(cfg1, w, sym, args) == RtCall(cfg2, w, sym, args)
  {
    hide RunImpl;
    hide Narrowed;
    hide Inject;
    hide IsIrreversible;
    if sym in cfg1.tools && !Gates(cfg1, sym) {
      var tool := cfg1.tools[sym];
      match Narrowed(tool.params, args, 0)
      case Err(_) =>
      case Ok(params) =>
        ImplAlike(cfg1, cfg2, tool.impl, w.store, w.counters, params);
    }
  }

  lemma FlagsAlike(cfg1: Config, cfg2: Config, syms: set<string>)
    requires SameHost(cfg1, cfg2) && cfg1.maxOps == cfg2.maxOps
    requires forall sym | sym in syms :: Gates(cfg1, sym) == Gates(cfg2, sym)
    ensures Simulates(cfg1, cfg2, SameWorld(), None, syms)
  {
    hide RtCall;
    hide Gates;
    forall w1, w2, sym, args | SameWorld()(w1, w2) && sym in syms
      ensures StepRel(SameWorld(), None, RtCall(cfg1, w1, sym, args), RtCall(cfg2, w2, sym, args))
    {
      CallAlike(cfg1, cfg2, w1, sym, args);
    }
  }

  /** Configurations that gate the same tools of a program run it identically, step for step. */
  lemma SameGatesSameRun(cfg1: Config, cfg2: Config, body: seq<Stmt>, syms: set<string>, init: set<nat>, w: World)
    requires SameHost(cfg1, cfg2) && cfg1.maxOps == cfg2.maxOps && cfg1.initial == cfg2.initial
    requires Within(body, syms) && forall sym | sym in syms :: Gates(cfg1, sym) == Gates(cfg2, sym)
    ensures RunBody(cfg1, body, init, w) == RunBody(cfg2, body, init, w)
  {
    hide ExecBlock;
    FlagsAlike(cfg1, cfg2, syms);
    hide Simulates;
    var st := St(InitialRegs(cfg1, init), w);
    BlockSim(cfg1, cfg2, SameWorld(), None, syms, true, body, init, init, st, st);
  }

  function Approved(cfg: Config): Config {
    cfg.(approval := true)
  }

  /** An unapproved preview run is the approved run: same calls in the same order, same state, same registers, same
      end. */
  lemma PreviewRunsAsApproved(cfg: Config, body: seq<Stmt>, init: set<nat>, w: World)
    requires cfg.preview
    ensures RunBody(cfg, body, init, w) == RunBody(Approved(cfg), body, init, w)
  {
    hide Within;
    SymbolsWithin(body);
    SameGatesSameRun(cfg, Approved(cfg), body, Symbols(body), init, w);
  }

  /** The preview's report: blocked exactly when the approved run ends ok or paused with a successful irreversible call
      in its log or more changes than the bulk limit, and then the reported list is the approved run's changes;
      otherwise it is the approved run's own report. */
  lemma PreviewReport(cfg: Config, body: seq<Stmt>, init: set<nat>, w: World)
    requires cfg.preview && !cfg.approval
    ensures var p, a := RunReport(cfg, body, init, w), RunReport(Approved(cfg), body, init, w);
            var over := cfg.bulkLimit.Some? && |Consequences(cfg, a.w.calls)| > cfg.bulkLimit.value;
            && p.w == a.w
            && (if (a.status.StatusOk? || a.status.StatusPaused?) && (Destroys(cfg, a.w.calls) || over)
                then p.status.StatusBlocked? && p.error.Some? && p.error.value.calls == Consequences(cfg, a.w.calls) &&
                     p.error.value.code == (if Destroys(cfg, a.w.calls) then "DESTRUCTIVE" else "BULK_WRITE")
                else p == a)
  {
    hide RunBody;
    hide Consequences;
    hide Verdict;
    hide Destroys;
    PreviewRunsAsApproved(cfg, body, init, w);
    var o := RunBody(cfg, body, init, w);
    VerdictExact(cfg, o.st.w.calls);
  }

  // ---------------------------------------------------------------- static effects

  /** The sandbox's tool table declares the effects that the context declares. */
  predicate SameEffects(ctx: TaskContext, cfg: Config) {
    forall sym | sym in cfg.tools :: sym in ctx.tools && ctx.tools[sym].effects == cfg.tools[sym].effects
  }

  /** The log extends `base`, and every later entry names a tool of the table and of `syms`. */
  function LogWithin(cfg: Config, base: seq<CallEntry>, syms: set<string>): Inv {
    (w: World) => base <= w.calls && forall i | |base| <= i < |w.calls| ::
        w.calls[i].tool in syms && w.calls[i].tool in cfg.tools
  }

  lemma LogWithinStable(cfg: Config, base: seq<CallEntry>, syms: set<string>)
    ensures Stable(cfg, LogWithin(cfg, base, syms), AnyExn(), syms)
  {
    hide RunImpl;
    hide Inject;
    hide Narrowed;
  }

  /** Every call a run logs has its properties in the program's static effect set. */
  lemma StaticEffectsCoverRun(ctx: TaskContext, cfg: Config, body: seq<Stmt>, init: set<nat>, w: World)
    requires SameEffects(ctx, cfg)
    ensures var calls := RunBody(cfg, body, init, w).st.w.calls;
            w.calls <= calls && forall i | |w.calls| <= i < |calls| ::
              calls[i].tool in cfg.tools && cfg.tools[calls[i].tool].effects <= EffectsOf(ctx, WalkCalls(body))
  {
    hide ExecBlock;
    hide Within;
    hide WalkCalls;
    var syms := Symbols(body);
    SymbolsWithin(body);
    LogWithinStable(cfg, w.calls, syms);
    hide Stable;
    BlockKeeps(cfg, LogWithin(cfg, w.calls, syms), AnyExn(), syms, body, init, St(InitialRegs(cfg, init), w));
    var calls := RunBody(cfg, body, init, w).st.w.calls;
    forall i | |w.calls| <= i < |calls|
      ensures cfg.tools[calls[i].tool].effects <= EffectsOf(ctx, WalkCalls(body))
    {
      assert calls[i].tool in syms;
      EffectsCover(ctx, WalkCalls(body), calls[i].tool);
    }
  }

  lemma EffectsCover(ctx: TaskContext, calls: seq<CallI>, sym: string)
    requires sym in ctx.tools && exists i | 0 <= i < |calls| :: calls[i].tool == sym
    ensures ctx.tools[sym].effects <= EffectsOf(ctx, calls)
  {
    var i :| 0 <= i < |calls| && calls[i].tool == sym;
    assert CallEffects(ctx, calls[i]) == ctx.tools[sym].effects;
  }

  /** Without "irreversible" in the static effect set, approval is irrelevant: the runs coincide and neither is
      blocked. */
  lemma NoIrreversibleNoGate(ctx: TaskContext, cfg: Config, body: seq<Stmt>, init: set<nat>, w: World)
    requires HonestForeign(cfg) && SameEffects(ctx, cfg) && Irreversible !in EffectsOf(ctx, WalkCalls(body))
    ensures RunBody(cfg, body, init, w) == RunBody(Approved(cfg), body, init, w)
    ensures !cfg.preview ==> !RunReport(cfg, body, init, w).status.StatusBlocked?
  {
    hide ExecBlock;
    hide Within;
    hide WalkCalls;
    SymbolsWithin(body);
    forall sym | sym in Symbols(body)
      ensures Gates(cfg, sym) == Gates(Approved(cfg), sym) == false
    {
      if sym in cfg.tools { EffectsCover(ctx, WalkCalls(body), sym); }
    }
    SameGatesSameRun(cfg, Approved(cfg), body, Symbols(body), init, w);
    BlockedRunNamesGatedTool(cfg, body, init, w);
  }

  // ---------------------------------------------------------------- what a gated run may do

  /** Foreign tools do not raise the gate's own exception; the sandbox hands them only `ToolError`. */
  ghost predicate HonestForeign(cfg: Config) {
    forall name, store, params :: var r := cfg.foreign(name, store, params).1; r.Err? ==> !r.error.Blocked?
  }

  lemma {:induction false} NarrowedOrdinary(params: seq<ToolParam>, args: seq<Value>, i: nat)
    requires i <= |params|
    ensures var r := Narrowed(params, args, i); r.Err? ==> r.error.ToolErr?
    decreases |params| - i
  {
    if i < |params| { NarrowedOrdinary(params, args, i + 1); }
  }

  lemma ImplOrdinary(cfg: Config, impl: Impl, store: Store, counters: map<string, nat>, params: seq<Value>)
    requires HonestForeign(cfg)
    ensures var r := RunImpl(cfg, impl, store, counters, params).r; r.Err? ==> !r.error.Blocked?
  {
    hide KeepWhere;
    hide FindIndex;
    hide Counter;
  }

  /** A call raises the gate's exception only when the gate stops its tool. */
  lemma BlockedMeansGated(cfg: Config, w: World, sym: string, args: seq<Value>)
    requires HonestForeign(cfg)
    ensures var r := RtCall(cfg, w, sym, args).r; r.Err? && r.error.Blocked? ==> Gates(cfg, sym) && r.error.tool == sym
  {
    hide Inject;
    hide RunImpl;
    if sym in cfg.tools {
      var tool := cfg.tools[sym];
      NarrowedOrdinary(tool.params, args, 0);
      if Narrowed(tool.params, args, 0).Ok? {
        ImplOrdinary(cfg, tool.impl, w.store, w.counters, Narrowed(tool.params, args, 0).value);
      }
    }
  }

  function Anything(): Inv {
    (w: World) => true
  }

  /** The gate's exception, if raised, names an irreversible tool of `syms`. */
  function GateNames(cfg: Config, syms: set<string>): Safe {
    (e: Exn) => e.Blocked? ==> e.tool in syms && Gates(cfg, e.tool)
  }

  /** A run that ends in the gate's exception was stopped at a gated tool its text calls. */
  lemma BlockedRunNamesGatedTool(cfg: Config, body: seq<Stmt>, init: set<nat>, w: World)
    requires HonestForeign(cfg)
    ensures var o := RunBody(cfg, body, init, w);
            o.flow.Fail? && o.flow.e.Blocked? ==> o.flow.e.tool in Symbols(body) && Gates(cfg, o.flow.e.tool)
  {
    hide ExecBlock;
    hide Within;
    hide WalkCalls;
    hide RtCall;
    hide Gates;
    var syms := Symbols(body);
    SymbolsWithin(body);
    var safe := GateNames(cfg, syms);
    assert Stable(cfg, Anything(), safe, syms) by {
      forall w1, sym, args | sym in syms
        ensures StepOk(Anything(), safe, RtCall(cfg, w1, sym, args))
      {
        BlockedMeansGated(cfg, w1, sym, args);
      }
    }
    BlockKeeps(cfg, Anything(), safe, syms, body, init, St(InitialRegs(cfg, init), w));
  }

  /** Since `base` the log holds no irreversible call. */
  function LogHarmless(cfg: Config, base: nat): Inv {
    (w: World) => base <= |w.calls| && forall i | base <= i < |w.calls| :: !IsIrreversible(cfg, w.calls[i].tool)
  }

  /** Without approval or preview no run ever logs an irreversible call, successful or not. */
  lemma GatedLogHarmless(cfg: Config, body: seq<Stmt>, init: set<nat>, w: World)
    requires !cfg.approval && !cfg.preview
    ensures var calls := RunBody(cfg, body, init, w).st.w.calls;
            forall i | |w.calls| <= i < |calls| :: !IsIrreversible(cfg, calls[i].tool)
  {
    hide ExecBlock;
    hide Within;
    hide WalkCalls;
    SymbolsWithin(body);
    var inv := LogHarmless(cfg, |w.calls|);
    assert Stable(cfg, inv, AnyExn(), Symbols(body)) by {
      hide RunImpl;
      hide Inject;
      hide Narrowed;
    }
    hide Stable;
    BlockKeeps(cfg, inv, AnyExn(), Symbols(body), body, init, St(InitialRegs(cfg, init), w));
  }
}
