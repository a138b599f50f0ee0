/** A task as its turns. */
module Turns {
  import opened Common
  import opened Ir
  import opened Runtime
  import opened Semantics
  import opened Check
  import opened Gate
  import opened Task

  // ---------------------------------------------------------------- the report of one run

  /** `kept` holds the registers left bound, with their values. */
  ghost predicate Keeps(regs: Regs, kept: Regs) {
    forall n: nat :: (n in kept <==> n in regs && regs[n] != Undef) && (n in kept ==> kept[n] == regs[n])
  }

  /** How the sandbox reports an error. */
  predicate Coded(e: Exn, status: Status, code: string) {
    match e
    case ToolErr(c) => status == StatusError && code == c
    case JsErr(_) => status == StatusError && code == "JS_ERROR"
    case Blocked(_, _) => status == StatusBlocked && code == "EFFECT_BLOCKED"
  }

  /** An unapproved preview has to show these calls to a person: one irreversible, or too many changes. */
  predicate NeedsApproval(cfg: Config, calls: seq<CallEntry>) {
    cfg.preview && !cfg.approval &&
    (Destroys(cfg, calls) || (cfg.bulkLimit.Some? && |Consequences(cfg, calls)| > cfg.bulkLimit.value))
  }

  /** `r` reports the run that ended with `o`. */
  ghost predicate Reported(cfg: Config, o: Out, r: Report) {
    && r.w == o.st.w
    && match o.flow
       case Fail(e) =>
         && Keeps(o.st.regs, r.regs) && (r.value, r.reason, r.refs) == (Nil, "", [])
         && r.error.Some? && r.error.value.calls == [] && Coded(e, r.status, r.error.value.code)
       case Done(Aborted(reason, refs)) => r == Report(StatusAborted, Nil, map[], reason, refs, None, o.st.w)
       case Done(Paused(regs)) => Passed(cfg, StatusPaused, Nil, regs, r)
       case Done(Returned(v)) => Passed(cfg, StatusOk, v, map[], r)
       case Done(Stopped) => Passed(cfg, StatusOk, Nil, map[], r)
       case Next => Passed(cfg, StatusOk, Nil, map[], r)
  }

  /** The report of a run that ended well, unless its changes need approval. */
  predicate Passed(cfg: Config, status: Status, v: Value, regs: Regs, r: Report) {
    var calls := r.w.calls;
    if NeedsApproval(cfg, calls) then
      var code := if Destroys(cfg, calls) then "DESTRUCTIVE" else "BULK_WRITE";
      r == Report(StatusBlocked, Nil, map[], "", [], Some(RunError(code, Consequences(cfg, calls))), r.w)
    else r == Report(status, v, regs, "", [], None, r.w)
  }

  lemma KeepsBound(regs: Regs, kept: Regs)
    ensures Keeps(regs, kept) <==> kept == Bound(regs)
  {
    if Keeps(regs, kept) {
      forall n: nat
        ensures (n in kept <==> n in Bound(regs)) && (n in kept ==> kept[n] == Bound(regs)[n])
      {
      }
    }
  }

  lemma PassedExactly(cfg: Config, status: Status, v: Value, regs: Regs, w: World, r: Report)
    requires r.w == w && (status.StatusOk? || status.StatusPaused?)
    ensures Passed(cfg, status, v, regs, r) <==> r == Finish(cfg, Report(status, v, regs, "", [], None, w))
  {
    hide Consequences;
    hide Verdict;
    hide Destroys;
    VerdictExact(cfg, w.calls);
  }

  lemma FailedExactly(cfg: Config, o: Out, r: Report)
    requires o.flow.Fail?
    ensures Reported(cfg, o, r) <==> r == Finish(cfg, Base(o))
  {
    hide Keeps;
    hide Bound;
    KeepsBound(o.st.regs, r.regs);
  }

  lemma ReportedExactly(cfg: Config, o: Out, r: Report)
    ensures Reported(cfg, o, r) <==> r == Finish(cfg, Base(o))
  {
    if o.flow.Fail? {
      hide Finish;
      FailedExactly(cfg, o, r);
    } else if r.w == o.st.w {
      hide Passed;
      var b := Base(o);
      if !b.status.StatusAborted? { hide Finish; PassedExactly(cfg, b.status, b.value, b.regs, o.st.w, r); }
    } else {
      hide Consequences;
      hide Verdict;
    }
  }

  // ---------------------------------------------------------------- one turn

  /** The host and the fresh world of the segment `l` stands before. */
  function HostOf(job: Job, l: Loop): Config {
    job.cfg.(initial := l.regs)
  }

  function FreshWorld(job: Job, store: Store): World {
    World(store, [], 0, 0, map[], job.injections)
  }

  /** The run of `body` as the segment `l` stands before. */
  function SegmentOut(job: Job, l: Loop, body: seq<Stmt>): Out {
    RunBody(HostOf(job, l), body, l.ctx.initial.Keys, FreshWorld(job, l.store))
  }

  /** The job's context with the registers of `regs` that `env` types as its initial ones. */
  ghost predicate Seeded(ctx: TaskContext, regs: Regs, env: Env, ctx1: TaskContext) {
    && (ctx1.tools, ctx1.fields, ctx1.constants) == (ctx.tools, ctx.fields, ctx.constants)
    && forall n: nat ::
         (n in ctx1.initial <==> n in env && n in regs) && (n in ctx1.initial ==> ctx1.initial[n] == env[n])
  }

  /** The planner writes this program, and it checks clean. */
  predicate Plans(planner: Planner, seg: nat, l: Loop, body: seq<Stmt>) {
    planner(seg, l.ctx, l.regs, l.feedback) == Program(body) && Clean(l.ctx, body, l.ctx.initial)
  }

  /** From `l` the segment's run paused, or failed in a job that reacts, and the task goes on at `l1`: with the run's
      state, calls and registers; after a PAUSE typed by its environment; after a failure by the program's final one,
      and with the report. */
  ghost predicate GoesOn(job: Job, l: Loop, body: seq<Stmt>, r: Report, l1: Loop) {
    var c := CheckBlock(l.ctx, body, l.ctx.initial);
    && l1.store == r.w.store && l1.regs == r.regs && l1.log == l.log + r.w.calls && l1.segments == l.segments + 1
    && if r.status.StatusPaused? then
         && l1.feedback.None? && l1.pauses == l.pauses + 1 && l1.errors == l.errors
         && Seeded(job.ctx, r.regs, if c.pauses == [] then map[] else c.pauses[0], l1.ctx)
       else
         && r.status.StatusError? && job.react
         && l1.feedback == Some(r) && l1.pauses == l.pauses && l1.errors == l.errors + 1
         && Seeded(job.ctx, r.regs, c.env, l1.ctx)
  }

  /** The task ends before running a segment from `l`. */
  ghost predicate EndsIdle(planner: Planner, seg: nat, l: Loop, row: Row) {
    && row.store == l.store && row.log == l.log && row.pauses == l.pauses && row.errors == l.errors
    && if seg == 8 then row.status == SegmentLimit && row.segments == l.segments
       else if planner(seg, l.ctx, l.regs, l.feedback) == GiveUp
       then row.status == PlannerExhausted && row.segments == l.segments
       else row.status == StaticError && row.segments == l.segments + 1 && forall body :: !Plans(planner, seg, l, body)
  }

  /** The task ends with the segment run from `l`. */
  ghost predicate EndsRun(job: Job, l: Loop, r: Report, row: Row) {
    && !r.status.StatusPaused? && !(r.status.StatusError? && job.react)
    && row == Row(Ran(r.status), r.w.store, l.log + r.w.calls, l.pauses, l.errors, l.segments + 1)
  }

  /** A task from `l` on, as its turns: `turns[i]` is where turn `seg + i` stands, `bodies[i]` what its planner writes
      and `reports[i]` what the sandbox reports of running it. */
  ghost predicate Unfolds(job: Job, planner: Planner, seg: nat, turns: seq<Loop>, bodies: seq<seq<Stmt>>,
                          reports: seq<Report>, row: Row) {
    var last := |turns| - 1;
    && turns != [] && seg + last <= 8 && last <= |bodies| == |reports| <= last + 1
    && (forall i | 0 <= i < |bodies| :: seg + i < 8 && Plans(planner, seg + i, turns[i], bodies[i]))
    && (forall i | 0 <= i < |bodies| ::
          Reported(HostOf(job, turns[i]), SegmentOut(job, turns[i], bodies[i]), reports[i]))
    && (forall i | 0 <= i < last :: GoesOn(job, turns[i], bodies[i], reports[i], turns[i + 1]))
    && if |bodies| == last then EndsIdle(planner, seg + last, turns[last], row)
       else EndsRun(job, turns[last], reports[last], row)
  }

  // ---------------------------------------------------------------- the loop is its turns

  lemma SegmentReported(job: Job, l: Loop, body: seq<Stmt>, r: Report)
    requires Clean(l.ctx, body, l.ctx.initial)
    ensures Reported(HostOf(job, l), SegmentOut(job, l, body), r) <==> r == RunSegment(job, body, l)
  {
    hide RunBody;
    hide Base;
    hide Finish;
    hide Clean;
    hide Reported;
    hide JsReport;
    ReportMatches(HostOf(job, l), l.ctx, body, FreshWorld(job, l.store));
    ReportedExactly(HostOf(job, l), SegmentOut(job, l, body), r);
  }

  lemma SeededExactly(ctx: TaskContext, regs: Regs, env: Env, ctx1: TaskContext)
    ensures Seeded(ctx, regs, env, ctx1) <==> ctx1 == SeedRegisters(ctx, regs, env)
  {
    if Seeded(ctx, regs, env, ctx1) {
      var ctx2 := SeedRegisters(ctx, regs, env);
      forall n: nat
        ensures (n in ctx1.initial <==> n in ctx2.initial) && (n in ctx1.initial ==> ctx1.initial[n] == ctx2.initial[n])
      {
      }
      assert ctx1.initial == ctx2.initial;
    }
  }

  lemma GoesOnExactly(job: Job, l: Loop, body: seq<Stmt>, r: Report, l1: Loop)
    ensures GoesOn(job, l, body, r, l1) <==> Continued(job, body, l, r) == Some(l1)
  {
    hide Seeded;
    hide SeedRegisters;
    hide CheckBlock;
    SeededExactly(job.ctx, r.regs, FirstPause(l.ctx, body), l1.ctx);
    SeededExactly(job.ctx, r.regs, CheckProgram(l.ctx, body).env, l1.ctx);
  }

  lemma EndsIdleExactly(job: Job, planner: Planner, seg: nat, l: Loop, row: Row)
    requires seg <= MAX_SEGMENTS && Idle(planner, seg, l)
    ensures EndsIdle(planner, seg, l, row) <==> row == RunFrom(job, planner, seg, l)
  {
    hide RunSegment;
    hide Clean;
    hide FirstPause;
    hide SeedRegisters;
  }

  lemma OneTurn(job: Job, planner: Planner, seg: nat, l: Loop, row: Row)
    requires seg <= MAX_SEGMENTS && EndsIdle(planner, seg, l, row)
    requires seg < MAX_SEGMENTS ==> Idle(planner, seg, l)
    ensures Unfolds(job, planner, seg, [l], [], [], row)
  {
    hide EndsIdle;
  }

  lemma LastTurn(job: Job, planner: Planner, seg: nat, l: Loop, body: seq<Stmt>, r: Report, row: Row)
    requires seg < MAX_SEGMENTS && Plans(planner, seg, l, body) && EndsRun(job, l, r, row)
    requires Reported(HostOf(job, l), SegmentOut(job, l, body), r)
    ensures Unfolds(job, planner, seg, [l], [body], [r], row)
  {
    hide Plans;
    hide EndsRun;
    hide Reported;
    hide SegmentOut;
  }

  lemma MoreTurns(job: Job, planner: Planner, seg: nat, l: Loop, body: seq<Stmt>, r: Report, turns: seq<Loop>,
                  bodies: seq<seq<Stmt>>, reports: seq<Report>, row: Row)
    requires Unfolds(job, planner, seg + 1, turns, bodies, reports, row)
    requires Plans(planner, seg, l, body) && Reported(HostOf(job, l), SegmentOut(job, l, body), r)
    requires GoesOn(job, l, body, r, turns[0])
    ensures Unfolds(job, planner, seg, [l] + turns, [body] + bodies, [r] + reports, row)
  {
    hide Plans;
    hide EndsIdle;
    hide EndsRun;
    hide GoesOn;
    hide Reported;
    hide SegmentOut;
    var ts, bs, rs := [l] + turns, [body] + bodies, [r] + reports;
    forall i | 0 <= i < |bs|
      ensures seg + i < MAX_SEGMENTS && Plans(planner, seg + i, ts[i], bs[i]) &&
              Reported(HostOf(job, ts[i]), SegmentOut(job, ts[i], bs[i]), rs[i])
    {
      if i > 0 { assert ts[i] == turns[i - 1] && bs[i] == bodies[i - 1] && rs[i] == reports[i - 1]; }
    }
    forall i | 0 <= i < |ts| - 1
      ensures GoesOn(job, ts[i], bs[i], rs[i], ts[i + 1])
    {
      if i > 0 {
        assert ts[i] == turns[i - 1] && ts[i + 1] == turns[i] && bs[i] == bodies[i - 1] && rs[i] == reports[i - 1];
      }
    }
  }

  /** The loop unfolds. */
  lemma {:induction false} LoopUnfolds(job: Job, planner: Planner, seg: nat, l: Loop)
    returns (turns: seq<Loop>, bodies: seq<seq<Stmt>>, reports: seq<Report>)
    requires seg <= MAX_SEGMENTS
    ensures Unfolds(job, planner, seg, turns, bodies, reports, RunFrom(job, planner, seg, l)) && turns[0] == l
    decreases MAX_SEGMENTS - seg
  {
    hide RunSegment;
    hide RunFrom;
    hide Idle;
    hide Unfolds;
    hide EndsIdle;
    hide GoesOn;
    hide Reported;
    hide SegmentOut;
    hide Plans;
    var row := RunFrom(job, planner, seg, l);
    if seg == MAX_SEGMENTS || Idle(planner, seg, l) {
      Exhausts(planner, seg, l);
      EndsIdleExactly(job, planner, seg, l, row);
      OneTurn(job, planner, seg, l, row);
      turns, bodies, reports := [l], [], [];
    } else {
      SegmentStep(job, planner, seg, l);
      var body := planner(seg, l.ctx, l.regs, l.feedback).body;
      NotIdle(planner, seg, l, body);
      var r := RunSegment(job, body, l);
      SegmentReported(job, l, body, r);
      var next := Continued(job, body, l, r);
      if next.Some? {
        GoesOnExactly(job, l, body, r, next.value);
        turns, bodies, reports := LoopUnfolds(job, planner, seg + 1, next.value);
        MoreTurns(job, planner, seg, l, body, r, turns, bodies, reports, row);
        turns, bodies, reports := [l] + turns, [body] + bodies, [r] + reports;
      } else {
        LastTurn(job, planner, seg, l, body, r, row);
        turns, bodies, reports := [l], [body], [r];
      }
    }
  }

  lemma NotIdle(planner: Planner, seg: nat, l: Loop, body: seq<Stmt>)
    ensures Plans(planner, seg, l, body) ==> !Idle(planner, seg, l) || seg == MAX_SEGMENTS
    ensures !Idle(planner, seg, l) && planner(seg, l.ctx, l.regs, l.feedback) == Program(body) ==>
            Plans(planner, seg, l, body) && Clean(l.ctx, body, l.ctx.initial)
  {
    hide Clean;
  }

  lemma FewerTurns(job: Job, planner: Planner, seg: nat, turns: seq<Loop>, bodies: seq<seq<Stmt>>,
                   reports: seq<Report>, row: Row)
    requires |turns| > 1 && Unfolds(job, planner, seg, turns, bodies, reports, row)
    ensures Plans(planner, seg, turns[0], bodies[0])
    ensures Reported(HostOf(job, turns[0]), SegmentOut(job, turns[0], bodies[0]), reports[0])
    ensures GoesOn(job, turns[0], bodies[0], reports[0], turns[1])
    ensures Unfolds(job, planner, seg + 1, turns[1..], bodies[1..], reports[1..], row)
  {
    hide Plans;
    hide EndsIdle;
    hide EndsRun;
    hide GoesOn;
    hide Reported;
    hide SegmentOut;
    forall i | 0 <= i < |turns| - 2
      ensures GoesOn(job, turns[1..][i], bodies[1..][i], reports[1..][i], turns[1..][i + 1])
    {
      assert GoesOn(job, turns[i + 1], bodies[i + 1], reports[i + 1], turns[i + 1 + 1]);
    }
    assert seg + 1 + (|turns[1..]| - 1) == seg + (|turns| - 1);
  }

  /** Only the loop's row ends turns that unfold. */
  lemma {:induction false} UnfoldedRow(job: Job, planner: Planner, seg: nat, turns: seq<Loop>, bodies: seq<seq<Stmt>>,
                                       reports: seq<Report>, row: Row)
    requires seg <= MAX_SEGMENTS && Unfolds(job, planner, seg, turns, bodies, reports, row)
    ensures row == RunFrom(job, planner, seg, turns[0])
    decreases turns
  {
    hide RunSegment;
    hide RunFrom;
    hide Idle;
    hide EndsIdle;
    hide GoesOn;
    hide Reported;
    hide SegmentOut;
    hide Plans;
    var l := turns[0];
    if |turns| > 1 {
      FewerTurns(job, planner, seg, turns, bodies, reports, row);
      hide Unfolds;
      UnfoldedRow(job, planner, seg + 1, turns[1..], bodies[1..], reports[1..], row);
      PlannedStep(job, planner, seg, l, bodies[0], reports[0]);
      GoesOnExactly(job, l, bodies[0], reports[0], turns[1]);
    } else if bodies == [] {
      IdleTurn(planner, seg, l, row);
      EndsIdleExactly(job, planner, seg, l, row);
    } else {
      PlannedStep(job, planner, seg, l, bodies[0], reports[0]);
    }
  }

  lemma IdleTurn(planner: Planner, seg: nat, l: Loop, row: Row)
    requires EndsIdle(planner, seg, l, row)
    ensures Idle(planner, seg, l)
  {
    hide Clean;
    var plan := planner(seg, l.ctx, l.regs, l.feedback);
    if plan.Program? && seg != MAX_SEGMENTS { assert !Plans(planner, seg, l, plan.body); }
  }

  lemma PlannedStep(job: Job, planner: Planner, seg: nat, l: Loop, body: seq<Stmt>, r: Report)
    requires seg < MAX_SEGMENTS && Plans(planner, seg, l, body)
    requires Reported(HostOf(job, l), SegmentOut(job, l, body), r)
    ensures r == RunSegment(job, body, l)
    ensures var next := Continued(job, body, l, r);
            RunFrom(job, planner, seg, l) ==
            if next.Some? then RunFrom(job, planner, seg + 1, next.value)
            else Ended(Counted(l, r), Ran(r.status), r.w.store)
  {
    hide RunSegment;
    hide RunFrom;
    hide Reported;
    hide SegmentOut;
    hide Idle;
    hide Continued;
    assert Clean(l.ctx, body, l.ctx.initial) && planner(seg, l.ctx, l.regs, l.feedback) == Program(body);
    NotIdle(planner, seg, l, body);
    hide Clean;
    hide Plans;
    SegmentReported(job, l, body, r);
    SegmentStep(job, planner, seg, l);
  }

  /** Where a task starts. */
  predicate Starts(job: Job, store: Store, l: Loop) {
    l == Loop(store, map[], job.ctx, None, [], 0, 0, 0)
  }

  /** `row` is where some turns from the start of the job on unfold to. */
  ghost predicate TaskUnfolds(job: Job, planner: Planner, store: Store, row: Row) {
    exists turns, bodies, reports ::
      Unfolds(job, planner, 0, turns, bodies, reports, row) && Starts(job, store, turns[0])
  }

  /** A row is a task's exactly when the task unfolds to it. */
  lemma TaskExactly(job: Job, planner: Planner, store: Store, row: Row)
    ensures row == RunFrom(job, planner, 0, Begin(job, store)) <==> TaskUnfolds(job, planner, store, row)
  {
    hide RunFrom;
    if row == RunFrom(job, planner, 0, Begin(job, store)) {
      var turns, bodies, reports := LoopUnfolds(job, planner, 0, Begin(job, store));
      assert Starts(job, store, turns[0]);
      hide Unfolds;
    }
    forall turns, bodies, reports |
      Unfolds(job, planner, 0, turns, bodies, reports, row) && Starts(job, store, turns[0])
      ensures row == RunFrom(job, planner, 0, Begin(job, store))
    {
      UnfoldedRow(job, planner, 0, turns, bodies, reports, row);
    }
  }

  /** `run_task`. */
  method RunTask(job: Job, planner: Planner, store: Store) returns (row: Row)
    ensures row == RunFrom(job, planner, 0, Begin(job, store))
    ensures row.segments <= 8 && row.pauses + row.errors <= row.segments
    ensures row.log == Logs(Reports(job, planner, 0, Begin(job, store)))
    ensures TaskUnfolds(job, planner, store, row)
  {
    hide RunSegment;
    hide Clean;
    hide Reports;
    hide TaskUnfolds;
    hide AfterPause;
    hide AfterError;
    hide Logs;
    hide Adds;
    TaskLaws(job, planner, store);
    TaskExactly(job, planner, store, RunFrom(job, planner, 0, Begin(job, store)));
    var l := Begin(job, store);
    for seg := 0 to MAX_SEGMENTS
      invariant RunFrom(job, planner, 0, Begin(job, store)) == RunFrom(job, planner, seg, l)
    {
      var plan := planner(seg, l.ctx, l.regs, l.feedback);
      if plan.GiveUp? {
        return Ended(l, PlannerExhausted, l.store);
      }
      if plan.Unparsed? || !Clean(l.ctx, plan.body, l.ctx.initial) {
        return Ended(l.(segments := l.segments + 1), StaticError, l.store);
      }
      var r := RunSegment(job, plan.body, l);
      if r.status.StatusPaused? {
        l := AfterPause(job, plan.body, l, r);
      } else if r.status.StatusError? && job.react {
        l := AfterError(job, plan.body, l, r);
      } else {
        return Ended(Counted(l, r), Ran(r.status), r.w.store);
      }
    }
    row := Ended(l, SegmentLimit, l.store);
  }

  // ---------------------------------------------------------------- reactions

  /** A failed run of `body` from `l`: what its report and the turn reacting to it hold. */
  ghost predicate Fails(job: Job, l: Loop, body: seq<Stmt>, r: Report, kept: Regs, ctx1: TaskContext) {
    var o := SegmentOut(job, l, body);
    && o.flow.Fail? && !o.flow.e.Blocked? && Reported(HostOf(job, l), o, r)
    && Keeps(o.st.regs, kept) && Seeded(job.ctx, kept, CheckBlock(l.ctx, body, l.ctx.initial).env, ctx1)
  }

  /** After a failure a reacting job asks its planner once more, with the failed report, the registers the run left
      bound and a context that types those the program's final environment types. A clean reaction runs from the failed
      run's state with these registers, and when it ends the task does, with both logs. */
  lemma ReactionRuns(job: Job, planner: Planner, seg: nat, l: Loop, body: seq<Stmt>, r: Report, kept: Regs,
                     ctx1: TaskContext, reaction: seq<Stmt>, r1: Report)
    requires seg + 1 < MAX_SEGMENTS && job.react && Plans(planner, seg, l, body) && Fails(job, l, body, r, kept, ctx1)
    requires planner(seg + 1, ctx1, kept, Some(r)) == Program(reaction) && Clean(ctx1, reaction, ctx1.initial)
    requires var failed, cfg := SegmentOut(job, l, body), job.cfg.(initial := kept);
             Reported(cfg, RunBody(cfg, reaction, ctx1.initial.Keys, FreshWorld(job, failed.st.w.store)), r1)
    requires !r1.status.StatusPaused? && !r1.status.StatusError?
    ensures RunFrom(job, planner, seg, l) ==
            Row(Ran(r1.status), r1.w.store, l.log + SegmentOut(job, l, body).st.w.calls + r1.w.calls, l.pauses,
                l.errors + 1, l.segments + 2)
  {
    hide RunFrom;
    hide RunBody;
    hide CheckBlock;
    hide Keeps;
    hide Seeded;
    hide Fails;
    var l1 := Loop(r.w.store, kept, ctx1, Some(r), l.log + r.w.calls, l.pauses, l.errors + 1, l.segments + 1);
    FailureGoesOn(job, l, body, r, kept, ctx1);
    assert Reported(HostOf(job, l), SegmentOut(job, l, body), r) by { Failed(job, l, body, r, kept, ctx1); }
    assert r.w == SegmentOut(job, l, body).st.w;
    assert Reported(HostOf(job, l1), SegmentOut(job, l1, reaction), r1);
    hide Reported;
    hide Continued;
    hide SegmentOut;
    hide HostOf;
    hide FreshWorld;
    PlannedStep(job, planner, seg, l, body, r);
    PlannedStep(job, planner, seg + 1, l1, reaction, r1);
    LastStep(job, l1, reaction, r1);
  }

  lemma Failed(job: Job, l: Loop, body: seq<Stmt>, r: Report, kept: Regs, ctx1: TaskContext)
    requires Fails(job, l, body, r, kept, ctx1)
    ensures Reported(HostOf(job, l), SegmentOut(job, l, body), r)
  {
    hide Reported;
  }

  lemma FailureGoesOn(job: Job, l: Loop, body: seq<Stmt>, r: Report, kept: Regs, ctx1: TaskContext)
    requires job.react && Fails(job, l, body, r, kept, ctx1)
    ensures r.w == SegmentOut(job, l, body).st.w
    ensures Continued(job, body, l, r) == Some(Loop(r.w.store, kept, ctx1, Some(r), l.log + r.w.calls, l.pauses,
                                                    l.errors + 1, l.segments + 1))
  {
    hide RunBody;
    hide CheckBlock;
    hide Keeps;
    hide Seeded;
    hide Continued;
    var o := SegmentOut(job, l, body);
    KeepsBound(o.st.regs, r.regs);
    KeepsBound(o.st.regs, kept);
    var l1 := Loop(r.w.store, kept, ctx1, Some(r), l.log + r.w.calls, l.pauses, l.errors + 1, l.segments + 1);
    assert GoesOn(job, l, body, r, l1);
    GoesOnExactly(job, l, body, r, l1);
  }

  lemma LastStep(job: Job, l: Loop, body: seq<Stmt>, r: Report)
    requires !r.status.StatusPaused? && !r.status.StatusError?
    ensures Continued(job, body, l, r) == None
  {
  }
}
