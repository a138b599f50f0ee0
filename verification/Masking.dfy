/** Exactly when a run ends effect_blocked. */
module Masking {
  import opened Common
  import opened Ir
  import opened Runtime
  import opened Semantics
  import opened Effects
  import opened Invariant
  import opened Gate

  // ---------------------------------------------------------------- one call

  /** The gate stops this call: within the budget, of a known gated tool, with acceptable arguments. */
  predicate Stops(cfg: Config, w: World, sym: string, args: seq<Value>) {
    !OverBudget(cfg, w) && sym in cfg.tools && Gates(cfg, sym) && Narrowed(cfg.tools[sym].params, args, 0).Ok?
  }

  predicate IsBlocked<T>(r: Res<T, Exn>) {
    r.Err? && r.error.Blocked?
  }

  predicate EndsBlocked(o: Out) {
    o.flow.Fail? && o.flow.e.Blocked?
  }

  lemma StopsExactly(cfg: Config, w: World, sym: string, args: seq<Value>)
    requires HonestForeign(cfg)
    ensures IsBlocked(RtCall(cfg, w, sym, args).r) <==> Stops(cfg, w, sym, args)
  {
    hide Inject;
    hide RunImpl;
    hide Narrowed;
    BlockedMeansGated(cfg, w, sym, args);
    if sym in cfg.tools { NarrowedOrdinary(cfg.tools[sym].params, args, 0); }
  }

  // ---------------------------------------------------------------- everything but calls

  function Unblocked(): Safe {
    (e: Exn) => !e.Blocked?
  }

  lemma CallFreeStable(cfg: Config)
    ensures Stable(cfg, Anything(), Unblocked(), {})
  {
  }

  lemma OpsUnblocked(cfg: Config, regs: Regs, w: World, ops: seq<Operand>)
    ensures !IsBlocked(EvalOps(cfg, regs, w, ops).r)
  {
    hide EvalOps;
    CallFreeStable(cfg);
    hide Stable;
    OpsKeep(cfg, Anything(), Unblocked(), {}, regs, w, ops);
  }

  lemma PredUnblocked(cfg: Config, regs: Regs, w: World, p: Pred)
    ensures !IsBlocked(EvalPred(cfg, regs, w, None, p).r)
  {
    hide EvalFrom;
    CallFreeStable(cfg);
    hide Stable;
    PredKeeps(cfg, Anything(), Unblocked(), {}, regs, w, None, p, 0);
  }

  /** An instruction that calls no tool and holds no block ends no run effect_blocked. */
  lemma FlatUnblocked(cfg: Config, s: Stmt, seen: set<nat>, st: St)
    requires !s.instr.Foreach? && !s.instr.If? && !s.instr.Try? && !s.instr.DoCall? && !s.instr.Parallel?
    ensures !EndsBlocked(ExecStmt(cfg, s, seen, st))
  {
    hide ExecStmt;
    CallFreeStable(cfg);
    hide Stable;
    StmtKeeps(cfg, Anything(), Unblocked(), {}, s, seen, st);
  }

  // ---------------------------------------------------------------- PARALLEL

  /** What the calls of the block return, in order; an operand that faults ends the list. */
  function Results(cfg: Config, regs: Regs, w: World, calls: seq<CallI>): seq<Result>
    decreases calls
  {
    if calls == [] then []
    else
      var a := EvalOps(cfg, regs, w, calls[0].args);
      if a.r.Err? then []
      else
        var s := RtCall(cfg, a.w, calls[0].tool, a.r.value);
        [s.r] + Results(cfg, regs, s.w, calls[1..])
  }

  /** The world in which call `i` evaluates its operands: every earlier call has run, failed or not. */
  function Before(cfg: Config, regs: Regs, w: World, calls: seq<CallI>, i: nat): World
    requires i <= |calls|
    decreases i
  {
    if i == 0 then w
    else
      var a := EvalOps(cfg, regs, w, calls[0].args);
      if a.r.Err? then a.w else Before(cfg, regs, RtCall(cfg, a.w, calls[0].tool, a.r.value).w, calls[1..], i - 1)
  }

  /** Result `i` is what call `i` returned. */
  lemma {:induction false} ResultAt(cfg: Config, regs: Regs, w: World, calls: seq<CallI>, i: nat)
    requires i < |Results(cfg, regs, w, calls)|
    ensures i < |calls|
    ensures var a := EvalOps(cfg, regs, Before(cfg, regs, w, calls, i), calls[i].args);
            a.r.Ok? && Results(cfg, regs, w, calls)[i] == RtCall(cfg, a.w, calls[i].tool, a.r.value).r
    decreases i
  {
    hide EvalOps;
    hide RtCall;
    var a := EvalOps(cfg, regs, w, calls[0].args);
    if i > 0 { ResultAt(cfg, regs, RtCall(cfg, a.w, calls[0].tool, a.r.value).w, calls[1..], i - 1); }
  }

  /** The index of the first failure, |rs| when there is none. */
  function FirstErr(rs: seq<Result>): (k: nat)
    ensures k <= |rs|
    ensures k < |rs| ==> rs[k].Err?
    ensures forall i | 0 <= i < k :: rs[i].Ok?
  {
    if rs == [] || rs[0].Err? then 0 else 1 + FirstErr(rs[1..])
  }

  /** With `rs` what the calls returned: a faulted block stopped short of its `n` calls, and a settled one has the
      values of all and the failure of the first that failed. */
  ghost predicate ReportsFirst(o: ParOut, rs: seq<Result>, n: nat) {
    match o
    case Faulted(_, e) => |rs| < n && !e.Blocked?
    case Settled(_, vals, failure) =>
      && |rs| == n == |vals| && (forall i | 0 <= i < n :: vals[i] == if rs[i].Ok? then rs[i].value else Undef)
      && failure == if FirstErr(rs) < n then Some(rs[FirstErr(rs)].error) else None
  }

  lemma ReportsOneMore(r: Result, tail: seq<Result>, o: ParOut, more: ParOut, n: nat)
    requires ReportsFirst(o, tail, n)
    requires o.Faulted? ==> more == o
    requires o.Settled? ==> more.Settled? && more.vals == [if r.Ok? then r.value else Undef] + o.vals &&
                            more.failure == if r.Err? then Some(r.error) else o.failure
    ensures ReportsFirst(more, [r] + tail, n + 1)
  {
    assert ([r] + tail)[1..] == tail;
  }

  /** PARALLEL settles exactly when no operand faults, and then reports the failure of its first failing call. */
  lemma {:induction false} ParallelReportsFirst(cfg: Config, regs: Regs, w: World, calls: seq<CallI>)
    ensures ReportsFirst(RunCalls(cfg, regs, w, calls), Results(cfg, regs, w, calls), |calls|)
    decreases calls
  {
    hide EvalOps;
    hide RtCall;
    hide ReportsFirst;
    if calls != [] {
      OpsUnblocked(cfg, regs, w, calls[0].args);
      var a := EvalOps(cfg, regs, w, calls[0].args);
      if a.r.Ok? {
        var s := RtCall(cfg, a.w, calls[0].tool, a.r.value);
        ParallelReportsFirst(cfg, regs, s.w, calls[1..]);
        ReportsOneMore(s.r, Results(cfg, regs, s.w, calls[1..]), RunCalls(cfg, regs, s.w, calls[1..]),
                       RunCalls(cfg, regs, w, calls), |calls| - 1);
      } else {
        NoneReported(RunCalls(cfg, regs, w, calls), |calls|);
      }
    } else {
      NoneReported(RunCalls(cfg, regs, w, calls), 0);
    }
  }

  lemma NoneReported(o: ParOut, n: nat)
    requires if n == 0 then o == Settled(o.w, [], None) else o.Faulted? && !o.fault.Blocked?
    ensures ReportsFirst(o, [], n)
  {
  }

  /** Call `i` of the block is one the gate stops. */
  predicate StopsAt(cfg: Config, regs: Regs, w: World, calls: seq<CallI>, i: nat)
    requires i < |calls|
  {
    var a := EvalOps(cfg, regs, Before(cfg, regs, w, calls, i), calls[i].args);
    a.r.Ok? && Stops(cfg, a.w, calls[i].tool, a.r.value)
  }

  /** All operands evaluate, and the first call to fail is one the gate stops. */
  predicate ParallelStops(cfg: Config, regs: Regs, w: World, calls: seq<CallI>) {
    var rs := Results(cfg, regs, w, calls);
    |rs| == |calls| && FirstErr(rs) < |calls| && StopsAt(cfg, regs, w, calls, FirstErr(rs))
  }

  lemma StoppedResult(cfg: Config, regs: Regs, w: World, calls: seq<CallI>, i: nat)
    requires HonestForeign(cfg) && i < |Results(cfg, regs, w, calls)|
    ensures i < |calls| && (IsBlocked(Results(cfg, regs, w, calls)[i]) <==> StopsAt(cfg, regs, w, calls, i))
  {
    hide EvalOps;
    hide RtCall;
    hide Stops;
    hide Results;
    ResultAt(cfg, regs, w, calls, i);
    var a := EvalOps(cfg, regs, Before(cfg, regs, w, calls, i), calls[i].args);
    StopsExactly(cfg, a.w, calls[i].tool, a.r.value);
  }

  /** PARALLEL ends effect_blocked exactly when its first failing call is one the gate stops. */
  lemma ParallelBlocksExactly(cfg: Config, st: St, calls: seq<CallI>)
    requires HonestForeign(cfg)
    ensures EndsBlocked(ParallelOut(cfg, st, calls)) <==> ParallelStops(cfg, st.regs, st.w, calls)
  {
    hide RunCalls;
    hide Results;
    hide BindAll;
    hide StopsAt;
    SettledLength(cfg, st.regs, st.w, calls);
    ParallelReportsFirst(cfg, st.regs, st.w, calls);
    var rs := Results(cfg, st.regs, st.w, calls);
    if |rs| == |calls| && FirstErr(rs) < |rs| { StoppedResult(cfg, st.regs, st.w, calls, FirstErr(rs)); }
  }

  /** A call the gate stops is hidden, the block reporting an earlier call's failure for it, exactly when an earlier
      call failed. */
  lemma HiddenExactly(cfg: Config, regs: Regs, w: World, calls: seq<CallI>, j: nat)
    requires HonestForeign(cfg) && |Results(cfg, regs, w, calls)| == |calls| && j < |calls| &&
             StopsAt(cfg, regs, w, calls, j)
    ensures var o, k := RunCalls(cfg, regs, w, calls), FirstErr(Results(cfg, regs, w, calls));
            && k <= j && o.Settled? && o.failure == Some(Results(cfg, regs, w, calls)[k].error)
            && (k < j <==> exists i | 0 <= i < j :: Results(cfg, regs, w, calls)[i].Err?)
            && (k == j ==> ParallelStops(cfg, regs, w, calls))
  {
    hide RunCalls;
    hide Results;
    ParallelReportsFirst(cfg, regs, w, calls);
    StoppedResult(cfg, regs, w, calls, j);
    hide StopsAt;
  }

  /** A TRY without retries around one PARALLEL whose operands evaluate: it passes on a stop and a JavaScript error that
      come first, and swallows a tool error that comes first, whatever the gate stopped behind it. */
  lemma TryAroundParallel(cfg: Config, dst: nat, line: nat, calls: seq<CallI>, seen: set<nat>, st: St)
    requires HonestForeign(cfg)
    requires var rs := Results(cfg, st.regs, Enter(st, line).w, calls); |rs| == |calls| && FirstErr(rs) < |rs|
    ensures var w := Enter(st, line).w;
            var rs := Results(cfg, st.regs, w, calls);
            var e := rs[FirstErr(rs)].error;
            var o := ExecTry(cfg, 0, dst, [At(line, Parallel(calls))], seen, st);
            if e.ToolErr? then o.flow.Next? && o.st.regs == st.regs[dst := Str(e.code)]
            else o.flow == Fail(e) && (EndsBlocked(o) <==> ParallelStops(cfg, st.regs, w, calls))
  {
    hide RunCalls;
    hide Results;
    hide BindAll;
    hide ParallelStops;
    var body := [At(line, Parallel(calls))];
    var st1 := Enter(st, line);
    SettledLength(cfg, st1.regs, st1.w, calls);
    ParallelReportsFirst(cfg, st1.regs, st1.w, calls);
    ParallelBlocksExactly(cfg, st1, calls);
    assert ExecBlock(cfg, body, seen, st) == ParallelOut(cfg, st1, calls) by { hide ParallelOut; assert body[1..] ==
           []; }
    hide ExecBlock;
  }

  // ---------------------------------------------------------------- whole runs

  /** The run of the block reaches a call the gate stops that no earlier failure of its PARALLEL hides. */
  predicate BlockStops(cfg: Config, body: seq<Stmt>, seen: set<nat>, st: St)
    decreases body, 0, 0
  {
    body != [] &&
    (StmtStops(cfg, body[0], seen, st) ||
     (var o := ExecStmt(cfg, body[0], seen, st);
      o.flow.Next? && BlockStops(cfg, body[1..], seen + StmtDsts(body[0]), o.st)))
  }

  predicate StmtStops(cfg: Config, s: Stmt, seen: set<nat>, st0: St)
    decreases s, 0, 0
  {
    var st := Enter(st0, s.line);
    match s.instr
    case DoCall(c) => var a := EvalOps(cfg, st.regs, st.w, c.args); a.r.Ok? && Stops(cfg, a.w, c.tool, a.r.value)
    case Parallel(calls) => ParallelStops(cfg, st.regs, st.w, calls)
    case Foreach(src, v, body) =>
      var it := Iterable(Lookup(st.regs, src));
      it.Ok? && EachStops(cfg, it.value, v, body, seen + {v}, st)
    case If(cond, thn, els) =>
      var c := EvalPred(cfg, st.regs, st.w, None, cond);
      c.r.Ok? &&
      (if c.r.value then BlockStops(cfg, thn, seen, St(st.regs, c.w))
       else els.Else? && BlockStops(cfg, els.body, seen + Dsts(thn), St(st.regs, c.w)))
    case Try(retry, dst, body) => TryStops(cfg, retry, dst, body, seen + {dst}, St(st.regs[dst := Str("OK")], st.w))
    case _ => false
  }

  predicate EachStops(cfg: Config, xs: seq<Value>, v: nat, body: seq<Stmt>, seen: set<nat>, st: St)
    decreases body, 1, |xs|
  {
    xs != [] &&
    (var st1 := St(st.regs[v := xs[0]], st.w);
     BlockStops(cfg, body, seen, st1) ||
     (var o := ExecBlock(cfg, body, seen, st1); o.flow.Next? && EachStops(cfg, xs[1..], v, body, seen, o.st)))
  }

  predicate TryStops(cfg: Config, left: nat, dst: nat, body: seq<Stmt>, seen: set<nat>, st: St)
    decreases body, 1, left
  {
    BlockStops(cfg, body, seen, st) ||
    (var o := ExecBlock(cfg, body, seen, st);
     o.flow.Fail? && o.flow.e.ToolErr? && left > 0 &&
     TryStops(cfg, left - 1, dst, body, seen, St(o.st.regs[dst := Str(o.flow.e.code)], o.st.w)))
  }

  lemma CallStops(cfg: Config, st: St, c: CallI)
    requires HonestForeign(cfg)
    ensures var a := EvalOps(cfg, st.regs, st.w, c.args);
            EndsBlocked(BindOption(st.regs, c.dst, CallStep(cfg, st.regs, st.w, c))) <==>
            a.r.Ok? && Stops(cfg, a.w, c.tool, a.r.value)
  {
    hide EvalOps;
    hide RtCall;
    hide Stops;
    OpsUnblocked(cfg, st.regs, st.w, c.args);
    var a := EvalOps(cfg, st.regs, st.w, c.args);
    if a.r.Ok? { StopsExactly(cfg, a.w, c.tool, a.r.value); }
  }

  lemma {:induction false} BlockEndsBlocked(cfg: Config, body: seq<Stmt>, seen: set<nat>, st: St)
    requires HonestForeign(cfg)
    ensures EndsBlocked(ExecBlock(cfg, body, seen, st)) <==> BlockStops(cfg, body, seen, st)
    decreases body, 0, 0
  {
    hide ExecStmt;
    hide StmtStops;
    hide HonestForeign;
    if body != [] {
      StmtEndsBlocked(cfg, body[0], seen, st);
      var o := ExecStmt(cfg, body[0], seen, st);
      if o.flow.Next? { BlockEndsBlocked(cfg, body[1..], seen + StmtDsts(body[0]), o.st); }
    }
  }

  lemma {:induction false} StmtEndsBlocked(cfg: Config, s: Stmt, seen: set<nat>, st0: St)
    requires HonestForeign(cfg)
    ensures EndsBlocked(ExecStmt(cfg, s, seen, st0)) <==> StmtStops(cfg, s, seen, st0)
    decreases s, 0, 1
  {
    hide HonestForeign;
    var i := s.instr;
    if i.Foreach? || i.If? || i.Try? {
      CompoundEndsBlocked(cfg, s, seen, st0);
    } else if i.DoCall? {
      hide CallStep;
      hide EvalOps;
      hide Stops;
      CallStops(cfg, Enter(st0, s.line), i.call);
    } else if i.Parallel? {
      hide ParallelOut;
      hide ParallelStops;
      ParallelBlocksExactly(cfg, Enter(st0, s.line), i.calls);
    } else {
      hide ExecStmt;
      FlatUnblocked(cfg, s, seen, st0);
    }
  }

  lemma {:induction false} CompoundEndsBlocked(cfg: Config, s: Stmt, seen: set<nat>, st0: St)
    requires HonestForeign(cfg) && (s.instr.Foreach? || s.instr.If? || s.instr.Try?)
    ensures EndsBlocked(ExecStmt(cfg, s, seen, st0)) <==> StmtStops(cfg, s, seen, st0)
    decreases s, 0, 0
  {
    hide HonestForeign;
    hide ExecBlock;
    hide ExecEach;
    hide ExecTry;
    hide EvalFrom;
    hide BlockStops;
    hide EachStops;
    hide TryStops;
    var st := Enter(st0, s.line);
    match s.instr
    case Foreach(src, v, body) =>
      var it := Iterable(Lookup(st.regs, src));
      if it.Ok? { EachEndsBlocked(cfg, it.value, v, body, seen + {v}, st); }
    case If(cond, thn, els) =>
      PredUnblocked(cfg, st.regs, st.w, cond);
      var c := EvalPred(cfg, st.regs, st.w, None, cond);
      BlockEndsBlocked(cfg, thn, seen, St(st.regs, c.w));
      if els.Else? { BlockEndsBlocked(cfg, els.body, seen + Dsts(thn), St(st.regs, c.w)); }
    case Try(retry, dst, body) =>
      TryEndsBlocked(cfg, retry, dst, body, seen + {dst}, St(st.regs[dst := Str("OK")], st.w));
  }

  lemma {:induction false} EachEndsBlocked(cfg: Config, xs: seq<Value>, v: nat, body: seq<Stmt>, seen: set<nat>, st: St)
    requires HonestForeign(cfg)
    ensures EndsBlocked(ExecEach(cfg, xs, v, body, seen, st)) <==> EachStops(cfg, xs, v, body, seen, st)
    decreases body, 1, |xs|
  {
    hide HonestForeign;
    hide ExecBlock;
    hide BlockStops;
    if xs != [] {
      var st1 := St(st.regs[v := xs[0]], st.w);
      BlockEndsBlocked(cfg, body, seen, st1);
      var o := ExecBlock(cfg, body, seen, st1);
      if o.flow.Next? { EachEndsBlocked(cfg, xs[1..], v, body, seen, o.st); }
    }
  }

  lemma {:induction false} TryEndsBlocked(cfg: Config, left: nat, dst: nat, body: seq<Stmt>, seen: set<nat>, st: St)
    requires HonestForeign(cfg)
    ensures EndsBlocked(ExecTry(cfg, left, dst, body, seen, st)) <==> TryStops(cfg, left, dst, body, seen, st)
    decreases body, 1, left
  {
    hide HonestForeign;
    hide ExecBlock;
    hide BlockStops;
    BlockEndsBlocked(cfg, body, seen, st);
    var o := ExecBlock(cfg, body, seen, st);
    if o.flow.Fail? && o.flow.e.ToolErr? && left > 0 {
      TryEndsBlocked(cfg, left - 1, dst, body, seen, St(o.st.regs[dst := Str(o.flow.e.code)], o.st.w));
    }
  }

  /** A run ends effect_blocked exactly when it reaches a call the gate stops that no earlier failure of its PARALLEL
      hides; so a stopped call fails to end a run only there. */
  lemma BlockedExactly(cfg: Config, body: seq<Stmt>, init: set<nat>, w: World)
    requires HonestForeign(cfg)
    ensures EndsBlocked(RunBody(cfg, body, init, w)) <==> BlockStops(cfg, body, init, St(InitialRegs(cfg, init), w))
  {
    hide ExecBlock;
    hide BlockStops;
    hide InitialRegs;
    BlockEndsBlocked(cfg, body, init, St(InitialRegs(cfg, init), w));
  }
}
