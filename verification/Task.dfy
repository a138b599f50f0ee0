/** The harness's segment loop (harness/run.py). */
module Task {
  import opened Common
  import opened Ir
  import opened Runtime
  import opened Semantics
  import opened JsTarget
  import opened Compile
  import opened CompileCorrect
  import opened Check
  import opened Closed
  import opened Gate
  import opened Pause
  import opened Typing

  const MAX_SEGMENTS := 8

  // ---------------------------------------------------------------- one segment

  /** A sandbox process starts from a state and the job's injections. */
  function Start(store: Store, injections: seq<Injection>): World {
    World(store, [], 0, 0, map[], injections)
  }

  /** The end of a run of `main` as a result, before the preview gate. */
  function JsBase(o: JsOut): Report {
    var r := Report(StatusOk, Nil, map[], "", [], None, o.st.w);
    match o.flow
    case JsNext => r
    case JsBreak => r
    case JsReturn(Returned(v)) => r.(value := v)
    case JsReturn(Stopped) => r
    case JsReturn(Aborted(reason, refs)) => r.(status := StatusAborted, reason := reason, refs := refs)
    case JsReturn(Paused(regs)) => r.(status := StatusPaused, regs := regs)
    case JsThrow(Blocked(_, _)) =>
      r.(status := StatusBlocked, regs := Bound(o.st.regs), error := Some(RunError("EFFECT_BLOCKED", [])))
    case JsThrow(ToolErr(code)) => r.(status := StatusError, regs := Bound(o.st.regs),
                                      error := Some(RunError(code, [])))
    case JsThrow(JsErr(_)) => r.(status := StatusError, regs := Bound(o.st.regs),
                                 error := Some(RunError("JS_ERROR", [])))
  }

  /** What the sandbox reports for emitted code. */
  function JsReport(cfg: Config, p: JsProgram, w: World): Report {
    Finish(cfg, JsBase(JsRun(cfg, p, w)))
  }

  /** The sandbox's report on the compiled program is the report of the direct semantics. */
  lemma ReportMatches(cfg: Config, ctx: TaskContext, body: seq<Stmt>, w: World)
    requires Clean(ctx, body, ctx.initial)
    ensures JsReport(cfg, CompileProgram(body, ctx.initial.Keys), w) == RunReport(cfg, body, ctx.initial.Keys, w)
  {
    hide JsRun;
    hide RunBody;
    hide CompileProgram;
    hide Finish;
    CompiledRunMatches(cfg, ctx, body, w);
    var p := CompileProgram(body, ctx.initial.Keys);
    var o := RunBody(cfg, body, ctx.initial.Keys, w);
    assert Bound(Declared(p.declared) + o.st.regs) == Bound(o.st.regs);
  }

  /** On emitted code, an unapproved preview ends in the approved run's world, and is blocked exactly when that run ends
      ok or paused with a successful irreversible call or too many changes; otherwise the two reports are the same. */
  lemma CompiledPreview(cfg: Config, ctx: TaskContext, body: seq<Stmt>, w: World)
    requires Clean(ctx, body, ctx.initial) && cfg.preview && !cfg.approval
    ensures var js := CompileProgram(body, ctx.initial.Keys);
            var p, a := JsReport(cfg, js, w), JsReport(Approved(cfg), js, w);
            var over := cfg.bulkLimit.Some? && |Consequences(cfg, a.w.calls)| > cfg.bulkLimit.value;
            && p.w == a.w
            && (if (a.status.StatusOk? || a.status.StatusPaused?) && (Destroys(cfg, a.w.calls) || over)
                then p.status.StatusBlocked? && p.error.Some? && p.error.value.calls == Consequences(cfg, a.w.calls)
                else p == a)
  {
    hide JsReport;
    hide RunReport;
    hide CompileProgram;
    hide Consequences;
    hide Destroys;
    ReportMatches(cfg, ctx, body, w);
    ReportMatches(Approved(cfg), ctx, body, w);
    PreviewReport(cfg, body, ctx.initial.Keys, w);
  }

  // ---------------------------------------------------------------- the loop

  /** What the planner hands over: nothing, text that does not parse, or a program. */
  datatype Plan = GiveUp | Unparsed | Program(body: seq<Stmt>)

  /** Segment index, context, bound registers, and the failed segment's report when reacting to an error. */
  type Planner = (nat, TaskContext, Regs, Option<Report>) -> Plan

  datatype Job = Job(cfg: Config, ctx: TaskContext, injections: seq<Injection>, react: bool)

  datatype Loop = Loop(store: Store, regs: Regs, ctx: TaskContext, feedback: Option<Report>, log: seq<CallEntry>,
                       pauses: nat, errors: nat, segments: nat)

  datatype TaskStatus = Ran(status: Status) | PlannerExhausted | StaticError | SegmentLimit

  datatype Row = Row(status: TaskStatus, store: Store, log: seq<CallEntry>, pauses: nat, errors: nat, segments: nat)

  /** `_seed_registers`: the returned registers that the environment types. */
  function SeedRegisters(ctx: TaskContext, regs: Regs, env: Env): TaskContext {
    ctx.(initial := map n | n in env && n in regs :: env[n])
  }

  /** The program's first PAUSE environment, or nothing. */
  function FirstPause(ctx: TaskContext, body: seq<Stmt>): Env {
    var envs := CheckProgram(ctx, body).pauses;
    if envs == [] then map[] else envs[0]
  }

  function RunSegment(job: Job, body: seq<Stmt>, l: Loop): Report {
    JsReport(job.cfg.(initial := l.regs), CompileProgram(body, l.ctx.initial.Keys), Start(l.store, job.injections))
  }

  function Ended(l: Loop, status: TaskStatus, store: Store): Row {
    Row(status, store, l.log, l.pauses, l.errors, l.segments)
  }

  function Counted(l: Loop, r: Report): Loop {
    l.(log := l.log + r.w.calls, segments := l.segments + 1)
  }

  function AfterPause(job: Job, body: seq<Stmt>, l: Loop, r: Report): Loop {
    Counted(l, r).(store := r.w.store, regs := r.regs, pauses := l.pauses + 1, feedback := None,
                   ctx := SeedRegisters(job.ctx, r.regs, FirstPause(l.ctx, body)))
  }

  function AfterError(job: Job, body: seq<Stmt>, l: Loop, r: Report): Loop {
    Counted(l, r).(store := r.w.store, regs := r.regs, errors := l.errors + 1, feedback := Some(r),
                   ctx := SeedRegisters(job.ctx, r.regs, CheckProgram(l.ctx, body).env))
  }

  /** The job from segment `seg` on. */
  function RunFrom(job: Job, planner: Planner, seg: nat, l: Loop): Row
    requires seg <= MAX_SEGMENTS
    decreases MAX_SEGMENTS - seg
  {
    if seg == MAX_SEGMENTS then Ended(l, SegmentLimit, l.store)
    else
      match planner(seg, l.ctx, l.regs, l.feedback)
      case GiveUp => Ended(l, PlannerExhausted, l.store)
      case Unparsed => Ended(l.(segments := l.segments + 1), StaticError, l.store)
      case Program(body) =>
        if !Clean(l.ctx, body, l.ctx.initial) then Ended(l.(segments := l.segments + 1), StaticError, l.store)
        else
          var r := RunSegment(job, body, l);
          if r.status.StatusPaused? then RunFrom(job, planner, seg + 1, AfterPause(job, body, l, r))
          else if r.status.StatusError? && job.react then RunFrom(job, planner, seg + 1, AfterError(job, body, l, r))
          else Ended(Counted(l, r), Ran(r.status), r.w.store)
  }

  function Begin(job: Job, store: Store): Loop {
    Loop(store, map[], job.ctx, None, [], 0, 0, 0)
  }

  // ---------------------------------------------------------------- what every task keeps

  /** The sandbox reports of the segments run, in order. */
  function Reports(job: Job, planner: Planner, seg: nat, l: Loop): seq<Report>
    requires seg <= MAX_SEGMENTS
    decreases MAX_SEGMENTS - seg
  {
    var plan := planner(seg, l.ctx, l.regs, l.feedback);
    if seg == MAX_SEGMENTS || !plan.Program? || !Clean(l.ctx, plan.body, l.ctx.initial) then []
    else
      var r := RunSegment(job, plan.body, l);
      [r] + (if r.status.StatusPaused? then Reports(job, planner, seg + 1, AfterPause(job, plan.body, l, r))
             else if r.status.StatusError? && job.react
             then Reports(job, planner, seg + 1, AfterError(job, plan.body, l, r))
             else [])
  }

  function Logs(rs: seq<Report>): seq<CallEntry> {
    if rs == [] then [] else rs[0].w.calls + Logs(rs[1..])
  }

  function HowMany(rs: seq<Report>, status: Status): nat {
    if rs == [] then 0 else (if rs[0].status == status then 1 else 0) + HowMany(rs[1..], status)
  }

  /** The row a task that began at `l` ends with, against the segments it ran: the log is theirs joined, a pause or a
      reaction is counted for every segment but the last, one further segment may have been refused, and the state is
      the last one's. */
  ghost predicate Adds(job: Job, l: Loop, rs: seq<Report>, row: Row) {
    && row.log == l.log + Logs(rs)
    && l.segments + |rs| <= row.segments <= l.segments + |rs| + 1
    && (row.segments == l.segments + |rs| + 1 ==> row.status.StaticError?)
    && row.pauses == l.pauses + HowMany(rs, StatusPaused)
    && row.errors <= l.errors + HowMany(rs, StatusError)
    && (!job.react ==> row.errors == l.errors)
    && (forall i | 0 <= i < |rs| - 1 :: rs[i].status.StatusPaused? || rs[i].status.StatusError?)
    && row.store == (if rs == [] then l.store else rs[|rs| - 1].w.store)
    && (row.status.Ran? ==> rs != [] && row.status.status == rs[|rs| - 1].status && !row.status.status.StatusPaused?)
  }

  lemma AddsFirst(job: Job, l: Loop, l1: Loop, r: Report, rs: seq<Report>, row: Row)
    requires Adds(job, l1, rs, row) && l1.log == l.log + r.w.calls && l1.segments == l.segments + 1 &&
             l1.store == r.w.store
    requires r.status.StatusPaused? || (r.status.StatusError? && job.react)
    requires l1.pauses == l.pauses + (if r.status.StatusPaused? then 1 else 0)
    requires l1.errors == l.errors + (if r.status.StatusPaused? then 0 else 1)
    ensures Adds(job, l, [r] + rs, row)
  {
    var all := [r] + rs;
    assert all[1..] == rs;
    assert l.log + r.w.calls + Logs(rs) == l.log + (r.w.calls + Logs(rs));
    forall i | 0 <= i < |all| - 1
      ensures all[i].status.StatusPaused? || all[i].status.StatusError?
    {
      if i > 0 { assert all[i] == rs[i - 1]; }
    }
  }

  /** The loop after a segment that does not end the task. */
  function Continued(job: Job, body: seq<Stmt>, l: Loop, r: Report): Option<Loop> {
    if r.status.StatusPaused? then Some(AfterPause(job, body, l, r))
    else if r.status.StatusError? && job.react then Some(AfterError(job, body, l, r))
    else None
  }

  /** No segment is run from here. */
  predicate Idle(planner: Planner, seg: nat, l: Loop) {
    var plan := planner(seg, l.ctx, l.regs, l.feedback);
    seg == MAX_SEGMENTS || !plan.Program? || !Clean(l.ctx, plan.body, l.ctx.initial)
  }

  lemma IdleRun(job: Job, planner: Planner, seg: nat, l: Loop)
    requires seg <= MAX_SEGMENTS && Idle(planner, seg, l)
    ensures Adds(job, l, Reports(job, planner, seg, l), RunFrom(job, planner, seg, l))
    ensures Reports(job, planner, seg, l) == []
    ensures RunFrom(job, planner, seg, l).segments <= l.segments + MAX_SEGMENTS - seg
  {
    hide RunSegment;
    hide Clean;
    hide FirstPause;
    hide SeedRegisters;
    assert l.log + [] == l.log;
  }

  lemma SegmentStep(job: Job, planner: Planner, seg: nat, l: Loop)
    requires seg < MAX_SEGMENTS && !Idle(planner, seg, l)
    ensures planner(seg, l.ctx, l.regs, l.feedback).Program?
    ensures var body := planner(seg, l.ctx, l.regs, l.feedback).body;
            var r := RunSegment(job, body, l);
            var next := Continued(job, body, l, r);
            && RunFrom(job, planner, seg, l) ==
               (if next.Some? then RunFrom(job, planner, seg + 1, next.value)
                else Ended(Counted(l, r), Ran(r.status), r.w.store))
            && Reports(job, planner, seg, l) ==
               [r] + (if next.Some? then Reports(job, planner, seg + 1, next.value) else [])
  {
    hide RunSegment;
    hide Clean;
    hide FirstPause;
    hide SeedRegisters;
  }

  lemma {:induction false} RunAdds(job: Job, planner: Planner, seg: nat, l: Loop)
    requires seg <= MAX_SEGMENTS
    ensures Adds(job, l, Reports(job, planner, seg, l), RunFrom(job, planner, seg, l))
    ensures |Reports(job, planner, seg, l)| <= MAX_SEGMENTS - seg
    ensures RunFrom(job, planner, seg, l).segments <= l.segments + MAX_SEGMENTS - seg
    decreases MAX_SEGMENTS - seg
  {
    hide RunSegment;
    hide RunFrom;
    hide Reports;
    hide Idle;
    hide Adds;
    if seg == MAX_SEGMENTS || Idle(planner, seg, l) {
      IdleRun(job, planner, seg, l) by { Exhausts(planner, seg, l); }
    } else {
      SegmentStep(job, planner, seg, l);
      var body := planner(seg, l.ctx, l.regs, l.feedback).body;
      var r := RunSegment(job, body, l);
      var next := Continued(job, body, l, r);
      if next.Some? {
        RunAdds(job, planner, seg + 1, next.value);
        AddsFirst(job, l, next.value, r, Reports(job, planner, seg + 1, next.value), RunFrom(job, planner, seg, l));
      } else {
        LoneReport(job, l, r);
        assert [r] + [] == [r];
      }
    }
  }

  lemma Exhausts(planner: Planner, seg: nat, l: Loop)
    ensures seg == MAX_SEGMENTS ==> Idle(planner, seg, l)
  {
  }

  lemma LoneReport(job: Job, l: Loop, r: Report)
    requires !r.status.StatusPaused?
    ensures Adds(job, l, [r], Ended(Counted(l, r), Ran(r.status), r.w.store))
  {
    assert [r][1..] == [];
    assert r.w.calls + [] == r.w.calls;
  }

  lemma {:induction false} CountsBounded(rs: seq<Report>)
    ensures HowMany(rs, StatusPaused) + HowMany(rs, StatusError) <= |rs|
    decreases rs
  {
    if rs != [] { CountsBounded(rs[1..]); }
  }

  /** Whatever the planner does: at most eight segments, no more pauses and reactions together than segments, and a log
      that is the segments' logs joined. */
  lemma TaskLaws(job: Job, planner: Planner, store: Store)
    ensures var rs, row := Reports(job, planner, 0, Begin(job, store)), RunFrom(job, planner, 0, Begin(job, store));
            && row.segments <= 8 && row.pauses + row.errors <= row.segments
            && row.log == Logs(rs) && Adds(job, Begin(job, store), rs, row)
  {
    hide RunFrom;
    hide Reports;
    var rs := Reports(job, planner, 0, Begin(job, store));
    RunAdds(job, planner, 0, Begin(job, store));
    CountsBounded(rs);
    assert [] + Logs(rs) == Logs(rs);
  }

  // ---------------------------------------------------------------- a task split at its PAUSEs

  /** Without a preview gate the report's status, state and calls are those of the run. */
  lemma PlainReport(cfg: Config, o: Out)
    requires !cfg.preview
    ensures Finish(cfg, Base(o)) == Base(o) && Base(o).w == o.st.w
    ensures Base(o).status.StatusPaused? <==> o.flow.Done? && o.flow.m.Paused?
    ensures Base(o).status.StatusPaused? ==> Base(o).regs == o.flow.m.regs
  {
  }

  lemma SegmentRuns(job: Job, l: Loop, body: seq<Stmt>)
    requires job.injections == [] && Clean(l.ctx, body, l.ctx.initial)
    ensures RunSegment(job, body, l) == RunReport(SegmentCfg(job, l), body, l.ctx.initial.Keys, Fresh(l.store))
  {
    hide JsReport;
    hide RunReport;
    hide Clean;
    ReportMatches(SegmentCfg(job, l), l.ctx, body, Fresh(l.store));
  }

  function SegmentCfg(job: Job, l: Loop): Config {
    job.cfg.(initial := l.regs)
  }

  /** A part of the program and, but for the last, the line of the PAUSE written after it. */
  datatype Part = Part(body: seq<Stmt>, line: nat)

  function Joined(parts: seq<Part>): seq<Stmt> {
    if parts == [] then [] else parts[0].body + Joined(parts[1..])
  }

  function Paused(p: Part): seq<Stmt> {
    p.body + [At(p.line, Instr.Pause)]
  }

  /** The loop after the segment `p` paused. */
  function Onward(job: Job, p: Part, l: Loop): Loop {
    AfterPause(job, Paused(p), l, RunSegment(job, Paused(p), l))
  }

  /** The planner writes the parts one after the other, each but the last closed by PAUSE, and all check clean. */
  ghost predicate Writes(job: Job, planner: Planner, parts: seq<Part>, seg: nat, l: Loop)
    requires parts != []
    decreases parts
  {
    if |parts| == 1 then planner(seg, l.ctx, l.regs, None) == Program(parts[0].body) &&
        Clean(l.ctx, parts[0].body, l.ctx.initial)
    else
      && planner(seg, l.ctx, l.regs, None) == Program(Paused(parts[0])) && Clean(l.ctx, Paused(parts[0]), l.ctx.initial)
      && Writes(job, planner, parts[1..], seg + 1, Onward(job, parts[0], l))
  }

  /** The parts run as one from where the loop stands. */
  function Whole(job: Job, parts: seq<Part>, l: Loop): Out {
    RunBody(SegmentCfg(job, l), Joined(parts), l.ctx.initial.Keys, Fresh(l.store))
  }

  /** At each PAUSE the conditions of PauseTransparent hold for what is still to come. */
  ghost predicate Divisible(job: Job, parts: seq<Part>, l: Loop)
    requires parts != []
    decreases parts
  {
    |parts| == 1 ||
    (var cfg, init := SegmentCfg(job, l), l.ctx.initial.Keys;
     && Splittable(cfg, Joined(parts[1..]), FirstPause(l.ctx, Paused(parts[0])).Keys,
                   ExecBlock(cfg, parts[0].body, init, St(InitialRegs(cfg, init), Fresh(l.store))))
     && Divisible(job, parts[1..], Onward(job, parts[0], l)))
  }

  /** A job in which nothing is injected, previewed or reacted to. */
  predicate Plainly(job: Job) {
    job.injections == [] && !job.cfg.preview && !job.react
  }

  /** The run stays within its budget and does not end in a PAUSE of its own. */
  predicate Concludes(job: Job, o: Out) {
    o.st.w.ops <= job.cfg.maxOps && !(o.flow.Done? && o.flow.m.Paused?)
  }

  lemma SameEnd(a: Out, b: Out)
    requires a.flow == b.flow
    ensures Base(a).status == Base(b).status
  {
  }

  /** One step: after the first part's PAUSE the rest is left to run from the onward loop, to the same end. */
  lemma FirstPart(job: Job, parts: seq<Part>, l: Loop)
    requires |parts| > 1 && Plainly(job) && Clean(l.ctx, Paused(parts[0]), l.ctx.initial)
    requires Divisible(job, parts, l) && Concludes(job, Whole(job, parts, l))
    ensures var r, l1 := RunSegment(job, Paused(parts[0]), l), Onward(job, parts[0], l);
            var whole, rest := Whole(job, parts, l), Whole(job, parts[1..], l1);
            && r.status.StatusPaused? && Concludes(job, rest) && whole.flow == rest.flow
            && whole.st.w.store == rest.st.w.store && whole.st.w.calls == r.w.calls + rest.st.w.calls
  {
    hide RunBody;
    hide ExecBlock;
    hide Clean;
    hide Splittable;
    hide RunSegment;
    hide FirstPause;
    hide Base;
    hide Finish;
    var cfg, init, p := SegmentCfg(job, l), l.ctx.initial.Keys, parts[0];
    var env := FirstPause(l.ctx, Paused(p));
    PauseTransparent(cfg, p.body, p.line, Joined(parts[1..]), init, env.Keys, l.store);
    var seg1 := RunBody(cfg, Paused(p), init, Fresh(l.store));
    SegmentRuns(job, l, Paused(p));
    PlainReport(cfg, seg1);
    var l1 := Onward(job, p, l);
    assert l1.ctx.initial.Keys == Seeds(seg1.flow.m.regs, env.Keys);
    assert SegmentCfg(job, l1) == cfg.(initial := seg1.flow.m.regs);
  }

  /** From any segment on: the parts end as they would in one run. */
  lemma {:induction false} PartsRun(job: Job, planner: Planner, parts: seq<Part>, seg: nat, l: Loop)
    requires parts != [] && seg + |parts| <= MAX_SEGMENTS && l.feedback.None?
    requires Plainly(job) && Writes(job, planner, parts, seg, l) && Divisible(job, parts, l) &&
             Concludes(job, Whole(job, parts, l))
    ensures var row, whole := RunFrom(job, planner, seg, l), Whole(job, parts, l);
            row == Row(Ran(Base(whole).status), whole.st.w.store, l.log + whole.st.w.calls,
                       l.pauses + |parts| - 1, l.errors, l.segments + |parts|)
    decreases parts
  {
    hide RunBody;
    hide Clean;
    hide RunSegment;
    hide RunFrom;
    hide Reports;
    hide FirstPause;
    hide SeedRegisters;
    hide Splittable;
    hide Base;
    hide Finish;
    SegmentStep(job, planner, seg, l);
    if |parts| == 1 {
      JoinedOne(parts[0]);
      assert parts == [parts[0]];
      SegmentRuns(job, l, parts[0].body);
      PlainReport(SegmentCfg(job, l), Whole(job, parts, l));
    } else {
      FirstPart(job, parts, l);
      var r, l1 := RunSegment(job, Paused(parts[0]), l), Onward(job, parts[0], l);
      PartsRun(job, planner, parts[1..], seg + 1, l1);
      var whole, rest := Whole(job, parts, l), Whole(job, parts[1..], l1);
      SameEnd(whole, rest);
      assert l.log + r.w.calls + rest.st.w.calls == l.log + (r.w.calls + rest.st.w.calls);
    }
  }

  lemma JoinedOne(p: Part)
    ensures Joined([p]) == p.body
  {
    assert [p][1..] == [] && p.body + [] == p.body;
  }

  /** A task written in any number of parts, with a PAUSE between them, ends like the task written in one: same status,
      same final state, same call log. */
  lemma SplitTaskSameRow(job: Job, split: Planner, joined: Planner, store: Store, parts: seq<Part>)
    requires 0 < |parts| <= MAX_SEGMENTS && Plainly(job)
    requires Writes(job, split, parts, 0, Begin(job, store)) && Divisible(job, parts, Begin(job, store))
    requires joined(0, job.ctx, map[], None) == Program(Joined(parts)) && Clean(job.ctx, Joined(parts), job.ctx.initial)
    requires Concludes(job, Whole(job, parts, Begin(job, store)))
    ensures var rs, rj := RunFrom(job, split, 0, Begin(job, store)), RunFrom(job, joined, 0, Begin(job, store));
            && rs.status == rj.status && rs.store == rj.store && rs.log == rj.log
            && rs.pauses == |parts| - 1 && rs.segments == |parts| && rj.pauses == 0 && rj.segments == 1
  {
    hide RunFrom;
    hide Clean;
    hide Base;
    hide Writes;
    hide Divisible;
    hide Whole;
    hide Concludes;
    hide Plainly;
    var l := Begin(job, store);
    PartsRun(job, split, parts, 0, l);
    var one := [Part(Joined(parts), 0)];
    AsOnePart(job, joined, parts, l);
    PartsRun(job, joined, one, 0, l);
  }

  lemma AsOnePart(job: Job, planner: Planner, parts: seq<Part>, l: Loop)
    requires planner(0, l.ctx, l.regs, None) == Program(Joined(parts)) && Clean(l.ctx, Joined(parts), l.ctx.initial)
    ensures var one := [Part(Joined(parts), 0)];
            Writes(job, planner, one, 0, l) && Divisible(job, one, l) && Whole(job, one, l) == Whole(job, parts, l)
  {
    hide Clean;
    hide RunBody;
    JoinedOne(Part(Joined(parts), 0));
  }
}
