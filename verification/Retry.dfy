/** TRY RETRY n makes at most n + 1 attempts. */
module Retry {
  import opened Common
  import opened Ir
  import opened Runtime
  import opened Semantics

  /** The ends of the body's runs, one per attempt. */
  ghost function Attempts(cfg: Config, left: nat, dst: nat, body: seq<Stmt>, seen: set<nat>, st: St): seq<Out>
    decreases left
  {
    var o := ExecBlock(cfg, body, seen, st);
    if ToolFailed(o) && left > 0 then [o] + Attempts(cfg, left - 1, dst, body, seen, Noted(o, dst)) else [o]
  }

  predicate ToolFailed(o: Out) {
    o.flow.Fail? && o.flow.e.ToolErr?
  }

  /** The state after a failed attempt: its effects stay, and the status register holds its code. */
  function Noted(o: Out, dst: nat): St
    requires ToolFailed(o)
  {
    St(o.st.regs[dst := Str(o.flow.e.code)], o.st.w)
  }

  /** What the attempts say about the end of the TRY. */
  ghost predicate TryEnds(cfg: Config, left: nat, dst: nat, body: seq<Stmt>, seen: set<nat>, st: St, outs: seq<Out>,
                          end: Out) {
    && 1 <= |outs| <= left + 1
    && outs[0] == ExecBlock(cfg, body, seen, st)
    && (forall i | 0 <= i < |outs| - 1 ::
        ToolFailed(outs[i]) && outs[i + 1] == ExecBlock(cfg, body, seen, Noted(outs[i], dst)))
    && var last := outs[|outs| - 1];
       && (ToolFailed(last) ==> |outs| == left + 1 && end == Out(Noted(last, dst), Next))
       && (last.flow.Next? ==> end == Out(St(last.st.regs[dst := Str("OK")], last.st.w), Next))
       && (!ToolFailed(last) && !last.flow.Next? ==> end == last)
  }

  /** The loop of attempts, from the attempt that has `left` retries after it. */
  lemma {:induction false} TryAttempts(cfg: Config, left: nat, dst: nat, body: seq<Stmt>, seen: set<nat>, st: St)
    ensures TryEnds(cfg, left, dst, body, seen, st, Attempts(cfg, left, dst, body, seen, st),
                    ExecTry(cfg, left, dst, body, seen, st))
    decreases left
  {
    hide ExecBlock;
    var o := ExecBlock(cfg, body, seen, st);
    if ToolFailed(o) && left > 0 {
      var st1 := Noted(o, dst);
      TryAttempts(cfg, left - 1, dst, body, seen, st1);
      var rest := Attempts(cfg, left - 1, dst, body, seen, st1);
      var outs := [o] + rest;
      assert outs[|outs| - 1] == rest[|rest| - 1];
      forall i | 0 <= i < |outs| - 1
        ensures ToolFailed(outs[i]) && outs[i + 1] == ExecBlock(cfg, body, seen, Noted(outs[i], dst))
      {
        if i > 0 { assert outs[i] == rest[i - 1] && outs[i + 1] == rest[i]; }
      }
    }
  }

  /** A TRY RETRY n statement runs its body at least once and at most n + 1 times; a run that falls through leaves "OK"
      in the status register if its last attempt did, and otherwise the code of attempt n + 1. Any other end of an
      attempt (a return, an abort, a PAUSE, the effect gate, a JavaScript fault) ends the TRY at once. */
  lemma TryRetryBound(cfg: Config, s: Stmt, seen: set<nat>, st: St)
    requires s.instr.Try?
    ensures var st1 := Enter(st, s.line);
            var start := St(st1.regs[s.instr.dst := Str("OK")], st1.w);
            TryEnds(cfg, s.instr.retry, s.instr.dst, s.instr.body, seen + {s.instr.dst}, start,
                    Attempts(cfg, s.instr.retry, s.instr.dst, s.instr.body, seen + {s.instr.dst}, start),
                        ExecStmt(cfg, s, seen, st))
  {
    hide TryEnds;
    hide Attempts;
    hide ExecTry;
    var st1 := Enter(st, s.line);
    TryAttempts(cfg, s.instr.retry, s.instr.dst, s.instr.body, seen + {s.instr.dst},
                St(st1.regs[s.instr.dst := Str("OK")], st1.w));
  }

  /** With retries exhausted or not, the status register tells success from failure whenever no tool error is coded
      "OK". */
  lemma StatusTellsOutcome(cfg: Config, s: Stmt, seen: set<nat>, st: St)
    requires s.instr.Try? && ExecStmt(cfg, s, seen, st).flow.Next?
    ensures var st1 := Enter(st, s.line);
            var outs := Attempts(cfg, s.instr.retry, s.instr.dst, s.instr.body, seen + {s.instr.dst},
                                 St(st1.regs[s.instr.dst := Str("OK")], st1.w));
            var last := outs[|outs| - 1];
            var d := s.instr.dst;
            var regs := ExecStmt(cfg, s, seen, st).st.regs;
            d in regs &&
            regs[d] ==
            (if last.flow.Next? then Str("OK") else if ToolFailed(last) then Str(last.flow.e.code) else Undef)
  {
    hide Attempts;
    hide ExecStmt;
    TryRetryBound(cfg, s, seen, st);
  }
}
