/** Two runs of the same text side by side: if every `rt` operation keeps two worlds related and answers alike,
    the runs answer alike. Serves approval against preview, gated against approved, and paused against unsplit runs. */
module Simulation {
  import opened Common
  import opened Ir
  import opened Runtime
  import opened Semantics
  import opened Effects
  import opened Invariant
  import MostLeast

  type Rel = (World, World) -> bool

  /** The operation budget is used up; without a limit, never. */
  predicate Exhausted(lim: Option<nat>, w: World) {
    lim.Some? && w.ops > lim.value
  }

  function ExhaustedInv(lim: Option<nat>): Inv {
    (w: World) => Exhausted(lim, w)
  }

  function AnyExn(): Safe {
    (e: Exn) => true
  }

  lemma ExhaustedStable(cfg: Config, lim: Option<nat>, syms: set<string>)
    ensures Stable(cfg, ExhaustedInv(lim), AnyExn(), syms)
  {
    hide RunImpl;
    hide Narrowed;
    hide Inject;
  }

  /** The two configurations differ at most in the approval flags, the seeded registers and the budget. */
  ghost predicate SameHost(cfg1: Config, cfg2: Config) {
    cfg2 == cfg1.(approval := cfg2.approval, preview := cfg2.preview, initial := cfg2.initial, maxOps := cfg2.maxOps,
                  bulkLimit := cfg2.bulkLimit)
  }

  ghost predicate StepRel(rel: Rel, lim: Option<nat>, a: Step, b: Step) {
    Exhausted(lim, a.w) || (rel(a.w, b.w) && a.r == b.r)
  }

  ghost predicate Simulates(cfg1: Config, cfg2: Config, rel: Rel, lim: Option<nat>, syms: set<string>) {
    && SameHost(cfg1, cfg2)
    && (forall w1, w2 {:trigger Tick(w1), Tick(w2)} | rel(w1, w2) ::
          Exhausted(lim, Tick(w1)) || (rel(Tick(w1), Tick(w2)) && OverBudget(cfg1, w1) == OverBudget(cfg2, w2)))
    && (forall w1, w2, l: nat {:trigger MarkLine(w1, l), MarkLine(w2, l)} | rel(w1, w2) ::
        rel(MarkLine(w1, l), MarkLine(w2, l)))
    && (forall w1, w2, sym, args {:trigger RtCall(cfg1, w1, sym, args), RtCall(cfg2, w2, sym, args)} | rel(w1, w2) &&
        sym in syms ::
          StepRel(rel, lim, RtCall(cfg1, w1, sym, args), RtCall(cfg2, w2, sym, args)))
  }

  /** Register files agree: as maps when `exact`, else in every value a program can read. */
  ghost predicate RegsRel(exact: bool, a: Regs, b: Regs) {
    if exact then a == b else forall n: nat :: Lookup(a, n) == Lookup(b, n)
  }

  ghost predicate FlowRel(exact: bool, a: Flow, b: Flow) {
    a == b || (!exact && a.Done? && b.Done? && a.m.Paused? && b.m.Paused?)
  }

  ghost predicate OutRel(exact: bool, rel: Rel, lim: Option<nat>, a: Out, b: Out) {
    Exhausted(lim, a.st.w) ||
    (rel(a.st.w, b.st.w) && RegsRel(exact, a.st.regs, b.st.regs) && FlowRel(exact, a.flow, b.flow))
  }

  lemma ChargedSim(cfg1: Config, cfg2: Config, rel: Rel, lim: Option<nat>, syms: set<string>, w1: World, w2: World,
                   r: Result)
    requires Simulates(cfg1, cfg2, rel, lim, syms) && rel(w1, w2)
    ensures StepRel(rel, lim, Charged(cfg1, w1, r), Charged(cfg2, w2, r))
  {
  }

  lemma RegsSim(exact: bool, a: Regs, b: Regs, n: nat)
    requires RegsRel(exact, a, b)
    ensures Lookup(a, n) == Lookup(b, n)
  {
  }

  lemma BindSim(exact: bool, a: Regs, b: Regs, n: nat, v: Value)
    requires RegsRel(exact, a, b)
    ensures RegsRel(exact, a[n := v], b[n := v])
  {
    var a1, b1 := a[n := v], b[n := v];
    if !exact {
      forall k: nat
        ensures Lookup(a1, k) == Lookup(b1, k)
      {
        assert Lookup(a, k) == Lookup(b, k);
      }
    }
  }

  lemma {:induction false} OpSim(cfg1: Config, cfg2: Config, rel: Rel, lim: Option<nat>, syms: set<string>, exact: bool,
                                 r1: Regs, r2: Regs, w1: World, w2: World, op: Operand)
    requires Simulates(cfg1, cfg2, rel, lim, syms) && rel(w1, w2) && RegsRel(exact, r1, r2)
    ensures StepRel(rel, lim, EvalOp(cfg1, r1, w1, op), EvalOp(cfg2, r2, w2, op))
  {
    hide Charged;
    hide Prop;
    match op
    case OReg(n) => RegsSim(exact, r1, r2, n);
    case ORegField(n, f) =>
      RegsSim(exact, r1, r2, n);
      ChargedSim(cfg1, cfg2, rel, lim, syms, w1, w2, FldValue(cfg1, Lookup(r1, n), f));
    case _ =>
  }

  lemma {:induction false} OpsSim(cfg1: Config, cfg2: Config, rel: Rel, lim: Option<nat>, syms: set<string>,
                                  exact: bool, r1: Regs, r2: Regs, w1: World, w2: World, ops: seq<Operand>)
    requires Simulates(cfg1, cfg2, rel, lim, syms) && rel(w1, w2) && RegsRel(exact, r1, r2)
    ensures var a, b := EvalOps(cfg1, r1, w1, ops), EvalOps(cfg2, r2, w2, ops);
            Exhausted(lim, a.w) || (rel(a.w, b.w) && a.r == b.r)
    decreases ops
  {
    hide EvalOp;
    hide Simulates;
    hide RegsRel;
    if ops != [] {
      OpSim(cfg1, cfg2, rel, lim, syms, exact, r1, r2, w1, w2, ops[0]);
      var a, b := EvalOp(cfg1, r1, w1, ops[0]), EvalOp(cfg2, r2, w2, ops[0]);
      if Exhausted(lim, a.w) {
        ExhaustedStable(cfg1, lim, syms);
        hide Stable;
        OpsKeep(cfg1, ExhaustedInv(lim), AnyExn(), syms, r1, a.w, ops[1..]);
      } else if a.r.Ok? {
        OpsSim(cfg1, cfg2, rel, lim, syms, exact, r1, r2, a.w, b.w, ops[1..]);
      }
    }
  }

  lemma ElemSim(cfg1: Config, cfg2: Config, rel: Rel, lim: Option<nat>, syms: set<string>, w1: World, w2: World,
                elem: Option<Value>, f: string)
    requires Simulates(cfg1, cfg2, rel, lim, syms) && rel(w1, w2)
    ensures StepRel(rel, lim, ElemFld(cfg1, w1, elem, f), ElemFld(cfg2, w2, elem, f))
  {
    hide Charged;
    hide Prop;
    if elem.Some? { ChargedSim(cfg1, cfg2, rel, lim, syms, w1, w2, FldValue(cfg1, elem.value, f)); }
  }

  lemma SideSim(cfg1: Config, cfg2: Config, rel: Rel, lim: Option<nat>, syms: set<string>, exact: bool,
                r1: Regs, r2: Regs, w1: World, w2: World, elem: Option<Value>, c: Clause)
    requires Simulates(cfg1, cfg2, rel, lim, syms) && rel(w1, w2) && RegsRel(exact, r1, r2)
    ensures StepRel(rel, lim, EvalLeft(cfg1, r1, w1, elem, c.left), EvalLeft(cfg2, r2, w2, elem, c.left))
    ensures StepRel(rel, lim, EvalRight(cfg1, r1, w1, elem, c.right), EvalRight(cfg2, r2, w2, elem, c.right))
  {
    hide EvalOp;
    hide ElemFld;
    match c.left {
      case LField(f) => ElemSim(cfg1, cfg2, rel, lim, syms, w1, w2, elem, f);
      case LOp(op) => OpSim(cfg1, cfg2, rel, lim, syms, exact, r1, r2, w1, w2, op);
    }
    match c.right
    case RElem(f) => ElemSim(cfg1, cfg2, rel, lim, syms, w1, w2, elem, f);
    case ROp(op) => OpSim(cfg1, cfg2, rel, lim, syms, exact, r1, r2, w1, w2, op);
    case RNone =>
  }

  lemma TestSim(cfg1: Config, cfg2: Config, rel: Rel, lim: Option<nat>, syms: set<string>, exact: bool,
                r1: Regs, r2: Regs, w1: World, w2: World, elem: Option<Value>, c: Clause)
    requires Simulates(cfg1, cfg2, rel, lim, syms) && rel(w1, w2) && RegsRel(exact, r1, r2)
    ensures StepRel(rel, lim, EvalTest(cfg1, r1, w1, elem, c), EvalTest(cfg2, r2, w2, elem, c))
  {
    hide EvalRight;
    hide EvalLeft;
    hide RtCmp;
    hide RtEmpty;
    hide RegsRel;
    SideSim(cfg1, cfg2, rel, lim, syms, exact, r1, r2, w1, w2, elem, c);
    var a, b := EvalLeft(cfg1, r1, w1, elem, c.left), EvalLeft(cfg2, r2, w2, elem, c.left);
    if Exhausted(lim, a.w) {
      ExhaustedTest(cfg1, lim, r1, w1, elem, c);
    } else if a.r.Ok? {
      if c.cmp.EMPTY? {
        EmptySim(cfg1, cfg2, rel, lim, syms, a.w, b.w, a.r.value);
      } else {
        SideSim(cfg1, cfg2, rel, lim, syms, exact, r1, r2, a.w, b.w, elem, c);
        var x, y := EvalRight(cfg1, r1, a.w, elem, c.right), EvalRight(cfg2, r2, b.w, elem, c.right);
        if Exhausted(lim, x.w) {
          ExhaustedTest(cfg1, lim, r1, w1, elem, c);
        } else if x.r.Ok? {
          CmpSim(cfg1, cfg2, rel, lim, syms, x.w, y.w, c.cmp, a.r.value, x.r.value);
        }
      }
    }
  }

  lemma ClauseSim(cfg1: Config, cfg2: Config, rel: Rel, lim: Option<nat>, syms: set<string>, exact: bool,
                  r1: Regs, r2: Regs, w1: World, w2: World, elem: Option<Value>, c: Clause)
    requires Simulates(cfg1, cfg2, rel, lim, syms) && rel(w1, w2) && RegsRel(exact, r1, r2)
    ensures var a, b := EvalClause(cfg1, r1, w1, elem, c), EvalClause(cfg2, r2, w2, elem, c);
            Exhausted(lim, a.w) || (rel(a.w, b.w) && a.r == b.r)
  {
    hide EvalTest;
    TestSim(cfg1, cfg2, rel, lim, syms, exact, r1, r2, w1, w2, elem, c);
  }

  lemma CmpSim(cfg1: Config, cfg2: Config, rel: Rel, lim: Option<nat>, syms: set<string>, w1: World, w2: World, op: Cmp,
               a: Value, b: Value)
    requires Simulates(cfg1, cfg2, rel, lim, syms) && rel(w1, w2)
    ensures StepRel(rel, lim, RtCmp(cfg1, w1, op, a, b), RtCmp(cfg2, w2, op, a, b))
  {
    hide Charged;
    HoldsAlike(cfg1, cfg2, op, a, b);
    hide CmpHolds;
    ChargedSim(cfg1, cfg2, rel, lim, syms, w1, w2,
               if op.EMPTY? then Err(JsErr("bad cmp")) else Ok(Bool(CmpHolds(cfg1, op, a, b))));
  }

  lemma EmptySim(cfg1: Config, cfg2: Config, rel: Rel, lim: Option<nat>, syms: set<string>, w1: World, w2: World,
                 v: Value)
    requires Simulates(cfg1, cfg2, rel, lim, syms) && rel(w1, w2)
    ensures StepRel(rel, lim, RtEmpty(cfg1, w1, v), RtEmpty(cfg2, w2, v))
  {
    hide Charged;
    ChargedSim(cfg1, cfg2, rel, lim, syms, w1, w2, Ok(Bool(IsEmpty(v))));
  }

  lemma HoldsAlike(cfg1: Config, cfg2: Config, op: Cmp, a: Value, b: Value)
    requires SameHost(cfg1, cfg2)
    ensures CmpHolds(cfg1, op, a, b) == CmpHolds(cfg2, op, a, b)
  {
    hide TextLess;
    hide HasSubstring;
    hide AsNumber;
    hide NarrowId;
    assert forall x, y :: SameNormed(cfg1, x, y) == SameNormed(cfg2, x, y);
    hide SameNormed;
  }

  /** Once the left side or the right side has used the budget up, the clause has. */
  lemma ExhaustedTest(cfg: Config, lim: Option<nat>, regs: Regs, w: World, elem: Option<Value>, c: Clause)
    ensures var a := EvalLeft(cfg, regs, w, elem, c.left);
            Exhausted(lim, a.w) || (a.r.Ok? && !c.cmp.EMPTY? &&
                                    Exhausted(lim, EvalRight(cfg, regs, a.w, elem, c.right).w)) ==>
            Exhausted(lim, EvalTest(cfg, regs, w, elem, c).w)
  {
    hide CmpHolds;
    hide FldValue;
  }

  lemma {:induction false} PredSim(cfg1: Config, cfg2: Config, rel: Rel, lim: Option<nat>, syms: set<string>,
                                   exact: bool, r1: Regs, r2: Regs, w1: World, w2: World, elem: Option<Value>, p: Pred,
                                   i: nat)
    requires Simulates(cfg1, cfg2, rel, lim, syms) && rel(w1, w2) && RegsRel(exact, r1, r2) && i < |p.clauses|
    ensures var a, b := EvalFrom(cfg1, r1, w1, elem, p, i), EvalFrom(cfg2, r2, w2, elem, p, i);
            Exhausted(lim, a.w) || (rel(a.w, b.w) && a.r == b.r)
    decreases |p.clauses| - i
  {
    hide EvalClause;
    hide NextGroup;
    hide Simulates;
    hide RegsRel;
    ClauseSim(cfg1, cfg2, rel, lim, syms, exact, r1, r2, w1, w2, elem, p.clauses[i]);
    var a, b := EvalClause(cfg1, r1, w1, elem, p.clauses[i]), EvalClause(cfg2, r2, w2, elem, p.clauses[i]);
    if a.r.Ok? {
      var j := if a.r.value then i + 1 else NextGroup(p, i);
      if j < |p.clauses| {
        if Exhausted(lim, a.w) {
          ExhaustedStable(cfg1, lim, syms);
          hide Stable;
          PredKeeps(cfg1, ExhaustedInv(lim), AnyExn(), syms, r1, a.w, elem, p, j);
        } else {
          PredSim(cfg1, cfg2, rel, lim, syms, exact, r1, r2, a.w, b.w, elem, p, j);
        }
      }
    }
  }

  lemma {:induction false} KeepSim(cfg1: Config, cfg2: Config, rel: Rel, lim: Option<nat>, syms: set<string>,
                                   exact: bool, r1: Regs, r2: Regs, w1: World, w2: World, p: Pred, xs: seq<Value>)
    requires Simulates(cfg1, cfg2, rel, lim, syms) && rel(w1, w2) && RegsRel(exact, r1, r2)
    ensures var a, b := Keep(cfg1, r1, w1, p, xs), Keep(cfg2, r2, w2, p, xs);
            Exhausted(lim, a.w) || (rel(a.w, b.w) && a.r == b.r)
    decreases xs
  {
    hide EvalFrom;
    hide Simulates;
    hide RegsRel;
    if xs != [] {
      PredSim(cfg1, cfg2, rel, lim, syms, exact, r1, r2, w1, w2, Some(xs[0]), p, 0);
      var a, b := EvalPred(cfg1, r1, w1, Some(xs[0]), p), EvalPred(cfg2, r2, w2, Some(xs[0]), p);
      if Exhausted(lim, a.w) {
        ExhaustedStable(cfg1, lim, syms);
        hide Stable;
        FilterKeeps(cfg1, ExhaustedInv(lim), AnyExn(), syms, r1, a.w, p, xs[1..]);
      } else if a.r.Ok? {
        KeepSim(cfg1, cfg2, rel, lim, syms, exact, r1, r2, a.w, b.w, p, xs[1..]);
      }
    }
  }

  /** The pure rt functions read nothing in which the two configurations differ. */
  lemma PureAlike(cfg1: Config, cfg2: Config, v: Value, sym: string, c: Value, flag: bool)
    requires SameHost(cfg1, cfg2)
    ensures FldValue(cfg1, v, sym) == FldValue(cfg2, v, sym)
    ensures MapValue(cfg1, v, sym) == MapValue(cfg2, v, sym)
    ensures ExtremeValue(cfg1, v, sym, c, flag) == ExtremeValue(cfg2, v, sym, c, flag)
  {
    hide Prop;
    hide CountsOf;
    hide Best;
    hide Iterable;
    hide AnyAbsent;
  }

  lemma SortValueAlike(cfg1: Config, cfg2: Config, v: Value, sym: string, desc: bool)
    requires SameHost(cfg1, cfg2)
    ensures SortValue(cfg1, v, sym, desc) == SortValue(cfg2, v, sym, desc)
  {
    hide Less;
    hide StableSort;
    hide AnyAbsent;
    if sym in cfg1.fields && v.List? {
      assert forall a, b :: Less(cfg1, a, b) == Less(cfg2, a, b) by { LessAlike(cfg1, cfg2); }
      MostLeast.SameSort((x, y) => Before(cfg1, cfg1.fields[sym], desc, x, y),
                (x, y) => Before(cfg2, cfg2.fields[sym], desc, x, y), v.elems);
    }
  }

  lemma LessAlike(cfg1: Config, cfg2: Config)
    requires SameHost(cfg1, cfg2)
    ensures forall a, b :: Less(cfg1, a, b) == Less(cfg2, a, b)
  {
    hide TextLess;
    hide AsNumber;
  }

  lemma {:induction false} SimpleSim(cfg1: Config, cfg2: Config, rel: Rel, lim: Option<nat>, syms: set<string>,
                                     exact: bool, r1: Regs, r2: Regs, w1: World, w2: World, i: Instr)
    requires IsSimple(i) && Simulates(cfg1, cfg2, rel, lim, syms) && rel(w1, w2) && RegsRel(exact, r1, r2)
    ensures StepRel(rel, lim, SimpleValue(cfg1, r1, w1, i), SimpleValue(cfg2, r2, w2, i))
  {
    hide Charged;
    hide EvalOp;
    hide EvalOps;
    hide Keep;
    hide FldValue;
    hide MapValue;
    hide SortValue;
    hide ExtremeValue;
    hide SelectValue;
    hide RtCount;
    hide RtFirst;
    if !i.Let? && !i.Format? { RegsSim(exact, r1, r2, i.src); }
    match i
    case Let(op, _) => OpSim(cfg1, cfg2, rel, lim, syms, exact, r1, r2, w1, w2, op);
    case Get(src, f, _) =>
      PureAlike(cfg1, cfg2, Lookup(r1, src), f, Nil, false);
      ChargedSim(cfg1, cfg2, rel, lim, syms, w1, w2, FldValue(cfg1, Lookup(r1, src), f));
    case Format(template, ops, _, kinds) => FormatSim(cfg1, cfg2, rel, lim, syms, exact, r1, r2, w1, w2, i);
    case Filter(src, p, _) =>
      var v := Lookup(r1, src);
      if v.List? { KeepSim(cfg1, cfg2, rel, lim, syms, exact, r1, r2, w1, w2, p, v.elems); }
    case MapF(src, f, _) =>
      PureAlike(cfg1, cfg2, Lookup(r1, src), f, Nil, false);
      ChargedSim(cfg1, cfg2, rel, lim, syms, w1, w2, MapValue(cfg1, Lookup(r1, src), f));
    case Count(_, _) =>
    case Most(src, f, cands, _, least) =>
      if cands.Some? { RegsSim(exact, r1, r2, cands.value); }
      var c := if cands.Some? then Lookup(r1, cands.value) else Nil;
      PureAlike(cfg1, cfg2, Lookup(r1, src), f, c, least);
      ChargedSim(cfg1, cfg2, rel, lim, syms, w1, w2, ExtremeValue(cfg1, Lookup(r1, src), f, c, least));
    case Sort(src, f, desc, _) =>
      SortValueAlike(cfg1, cfg2, Lookup(r1, src), f, desc);
      ChargedSim(cfg1, cfg2, rel, lim, syms, w1, w2, SortValue(cfg1, Lookup(r1, src), f, desc));
    case Select(src, idx, _) =>
      OpSim(cfg1, cfg2, rel, lim, syms, exact, r1, r2, w1, w2, idx);
      var a, b := EvalOp(cfg1, r1, w1, idx), EvalOp(cfg2, r2, w2, idx);
      if a.r.Ok? {
        if Exhausted(lim, a.w) {
          ChargedMore(cfg1, lim, a.w, SelectValue(Lookup(r1, src), a.r.value));
        } else {
          ChargedSim(cfg1, cfg2, rel, lim, syms, a.w, b.w, SelectValue(Lookup(r1, src), a.r.value));
        }
      }
    case First(_, _) =>
  }

  lemma ChargedMore(cfg: Config, lim: Option<nat>, w: World, r: Result)
    requires Exhausted(lim, w)
    ensures Exhausted(lim, Charged(cfg, w, r).w)
  {
  }

  lemma FormatSim(cfg1: Config, cfg2: Config, rel: Rel, lim: Option<nat>, syms: set<string>, exact: bool,
                  r1: Regs, r2: Regs, w1: World, w2: World, i: Instr)
    requires i.Format? && Simulates(cfg1, cfg2, rel, lim, syms) && rel(w1, w2) && RegsRel(exact, r1, r2)
    ensures StepRel(rel, lim, SimpleValue(cfg1, r1, w1, i), SimpleValue(cfg2, r2, w2, i))
  {
    hide Charged;
    hide EvalOps;
    OpsSim(cfg1, cfg2, rel, lim, syms, exact, r1, r2, w1, w2, i.ops);
    var a, b := EvalOps(cfg1, r1, w1, i.ops), EvalOps(cfg2, r2, w2, i.ops);
    if a.r.Ok? && i.template in cfg1.constants {
      var r := Ok(Str(Filled(cfg1.printer, TextOf(cfg1.printer, cfg1.constants[i.template]), a.r.value, i.kinds)));
      if Exhausted(lim, a.w) {
        ChargedMore(cfg1, lim, a.w, r);
      } else {
        ChargedSim(cfg1, cfg2, rel, lim, syms, a.w, b.w, r);
      }
    }
  }

  lemma CallSim(cfg1: Config, cfg2: Config, rel: Rel, lim: Option<nat>, syms: set<string>, exact: bool,
                r1: Regs, r2: Regs, w1: World, w2: World, c: CallI)
    requires c.tool in syms && Simulates(cfg1, cfg2, rel, lim, syms) && rel(w1, w2) && RegsRel(exact, r1, r2)
    ensures StepRel(rel, lim, CallStep(cfg1, r1, w1, c), CallStep(cfg2, r2, w2, c))
  {
    hide EvalOps;
    hide RtCall;
    OpsSim(cfg1, cfg2, rel, lim, syms, exact, r1, r2, w1, w2, c.args);
    var a := EvalOps(cfg1, r1, w1, c.args);
    if a.r.Ok? && Exhausted(lim, a.w) {
      ExhaustedStable(cfg1, lim, syms);
      assert ExhaustedInv(lim)(RtCall(cfg1, a.w, c.tool, a.r.value).w);
    }
  }

  ghost predicate ParRel(rel: Rel, lim: Option<nat>, a: ParOut, b: ParOut) {
    Exhausted(lim, a.w) ||
    (rel(a.w, b.w) && match a
     case Faulted(_, e) => b.Faulted? && b.fault == e
     case Settled(_, vals, f) => b.Settled? && b.vals == vals && b.failure == f)
  }

  lemma {:induction false} CallsSim(cfg1: Config, cfg2: Config, rel: Rel, lim: Option<nat>, syms: set<string>,
                                    exact: bool, r1: Regs, r2: Regs, w1: World, w2: World, calls: seq<CallI>)
    requires CallsWithin(calls, syms) && Simulates(cfg1, cfg2, rel, lim, syms) && rel(w1, w2) && RegsRel(exact, r1, r2)
    ensures ParRel(rel, lim, RunCalls(cfg1, r1, w1, calls), RunCalls(cfg2, r2, w2, calls))
    decreases calls
  {
    hide EvalOps;
    hide RtCall;
    hide RegsRel;
    if calls != [] {
      var c := calls[0];
      OpsSim(cfg1, cfg2, rel, lim, syms, exact, r1, r2, w1, w2, c.args);
      CallSim(cfg1, cfg2, rel, lim, syms, exact, r1, r2, w1, w2, c);
      hide Simulates;
      var a, b := EvalOps(cfg1, r1, w1, c.args), EvalOps(cfg2, r2, w2, c.args);
      if a.r.Ok? {
        var s := RtCall(cfg1, a.w, c.tool, a.r.value);
        if Exhausted(lim, s.w) || Exhausted(lim, a.w) {
          ExhaustedStable(cfg1, lim, syms);
          assert Exhausted(lim, a.w) ==> ExhaustedInv(lim)(s.w);
          hide Stable;
          CallsKeep(cfg1, ExhaustedInv(lim), AnyExn(), syms, r1, s.w, calls[1..]);
        } else {
          CallsSim(cfg1, cfg2, rel, lim, syms, exact, r1, r2, s.w, RtCall(cfg2, b.w, c.tool, b.r.value).w, calls[1..]);
        }
      }
    }
  }

  lemma {:induction false} BindAllSim(exact: bool, a: Regs, b: Regs, calls: seq<CallI>, vals: seq<Value>)
    requires RegsRel(exact, a, b) && |vals| == |calls|
    ensures RegsRel(exact, BindAll(a, calls, vals), BindAll(b, calls, vals))
    decreases calls
  {
    hide RegsRel;
    if calls != [] {
      if calls[0].dst.Some? {
        BindSim(exact, a, b, calls[0].dst.value, vals[0]);
        BindAllSim(exact, a[calls[0].dst.value := vals[0]], b[calls[0].dst.value := vals[0]], calls[1..], vals[1..]);
      } else {
        BindAllSim(exact, a, b, calls[1..], vals[1..]);
      }
    }
  }

  lemma ParallelSim(cfg1: Config, cfg2: Config, rel: Rel, lim: Option<nat>, syms: set<string>, exact: bool, s1: St,
                    s2: St, calls: seq<CallI>)
    requires CallsWithin(calls, syms) && Simulates(cfg1, cfg2, rel, lim, syms) && rel(s1.w, s2.w) &&
             RegsRel(exact, s1.regs, s2.regs)
    ensures OutRel(exact, rel, lim, ParallelOut(cfg1, s1, calls), ParallelOut(cfg2, s2, calls))
  {
    hide RegsRel;
    hide RunCalls;
    hide BindAll;
    CallsSim(cfg1, cfg2, rel, lim, syms, exact, s1.regs, s2.regs, s1.w, s2.w, calls);
    hide Simulates;
    SettledLength(cfg1, s1.regs, s1.w, calls);
    SettledLength(cfg2, s2.regs, s2.w, calls);
    var a := RunCalls(cfg1, s1.regs, s1.w, calls);
    if a.Settled? { BindAllSim(exact, s1.regs, s2.regs, calls, a.vals); }
  }

  /** The premises of a side-by-side run. */
  ghost predicate Ready(cfg1: Config, cfg2: Config, rel: Rel, lim: Option<nat>, syms: set<string>, exact: bool,
                        seen1: set<nat>, seen2: set<nat>, s1: St, s2: St) {
    Simulates(cfg1, cfg2, rel, lim, syms) && rel(s1.w, s2.w) && RegsRel(exact, s1.regs, s2.regs) &&
        (exact ==> seen1 == seen2)
  }

  /** Related starts give related ends: same flow, related worlds, agreeing registers. */
  lemma {:induction false} BlockSim(cfg1: Config, cfg2: Config, rel: Rel, lim: Option<nat>, syms: set<string>,
                                    exact: bool, body: seq<Stmt>, seen1: set<nat>, seen2: set<nat>, s1: St, s2: St)
    requires Within(body, syms) && Ready(cfg1, cfg2, rel, lim, syms, exact, seen1, seen2, s1, s2)
    ensures OutRel(exact, rel, lim, ExecBlock(cfg1, body, seen1, s1), ExecBlock(cfg2, body, seen2, s2))
    decreases body, 0, 0
  {
    hide ExecStmt;
    hide Simulates;
    hide RegsRel;
    if body != [] {
      StmtSim(cfg1, cfg2, rel, lim, syms, exact, body[0], seen1, seen2, s1, s2);
      var a, b := ExecStmt(cfg1, body[0], seen1, s1), ExecStmt(cfg2, body[0], seen2, s2);
      if a.flow.Next? {
        var d := StmtDsts(body[0]);
        if Exhausted(lim, a.st.w) {
          ExhaustedStable(cfg1, lim, syms);
          hide Stable;
          BlockKeeps(cfg1, ExhaustedInv(lim), AnyExn(), syms, body[1..], seen1 + d, a.st);
        } else {
          BlockSim(cfg1, cfg2, rel, lim, syms, exact, body[1..], seen1 + d, seen2 + d, a.st, b.st);
        }
      }
    }
  }

  lemma {:induction false} StmtSim(cfg1: Config, cfg2: Config, rel: Rel, lim: Option<nat>, syms: set<string>,
                                   exact: bool, s: Stmt, seen1: set<nat>, seen2: set<nat>, t1: St, t2: St)
    requires StmtWithin(s, syms) && Ready(cfg1, cfg2, rel, lim, syms, exact, seen1, seen2, t1, t2)
    ensures OutRel(exact, rel, lim, ExecStmt(cfg1, s, seen1, t1), ExecStmt(cfg2, s, seen2, t2))
    decreases s, 1, 0
  {
    hide ExecStmt;
    hide RegsRel;
    EnterOnce(cfg1, s, seen1, t1);
    EnterOnce(cfg2, s, seen2, t2);
    var s1, s2 := Enter(t1, s.line), Enter(t2, s.line);
    match s.instr
    case Foreach(_, _, _) => ForeachSim(cfg1, cfg2, rel, lim, syms, exact, s, seen1, seen2, s1, s2);
    case If(_, _, _) => IfSim(cfg1, cfg2, rel, lim, syms, exact, s, seen1, seen2, s1, s2);
    case Try(_, _, _) => RetrySim(cfg1, cfg2, rel, lim, syms, exact, s, seen1, seen2, s1, s2);
    case _ => FlatSim(cfg1, cfg2, rel, lim, syms, exact, s, seen1, seen2, s1, s2);
  }

  lemma CallOutSim(cfg1: Config, cfg2: Config, rel: Rel, lim: Option<nat>, syms: set<string>, exact: bool, s1: St,
                   s2: St, c: CallI)
    requires c.tool in syms && Simulates(cfg1, cfg2, rel, lim, syms) && rel(s1.w, s2.w)
    requires RegsRel(exact, s1.regs, s2.regs)
    ensures OutRel(exact, rel, lim, BindOption(s1.regs, c.dst, CallStep(cfg1, s1.regs, s1.w, c)),
                   BindOption(s2.regs, c.dst, CallStep(cfg2, s2.regs, s2.w, c)))
  {
    hide CallStep;
    hide Simulates;
    hide RegsRel;
    CallSim(cfg1, cfg2, rel, lim, syms, exact, s1.regs, s2.regs, s1.w, s2.w, c);
    var a := CallStep(cfg1, s1.regs, s1.w, c);
    if a.r.Ok? && c.dst.Some? { BindSim(exact, s1.regs, s2.regs, c.dst.value, a.r.value); }
  }

  lemma {:induction false} FlatSim(cfg1: Config, cfg2: Config, rel: Rel, lim: Option<nat>, syms: set<string>,
                                   exact: bool, s: Stmt, seen1: set<nat>, seen2: set<nat>, s1: St, s2: St)
    requires !s.instr.Foreach? && !s.instr.If? && !s.instr.Try?
    requires StmtWithin(s, syms) && Ready(cfg1, cfg2, rel, lim, syms, exact, seen1, seen2, s1, s2)
    ensures OutRel(exact, rel, lim, ExecStmt(cfg1, At(0, s.instr), seen1, s1),
                   ExecStmt(cfg2, At(0, s.instr), seen2, s2))
  {
    hide EvalOp;
    hide SimpleValue;
    hide CallStep;
    hide ParallelOut;
    hide Simulates;
    hide RegsRel;
    var i := s.instr;
    if IsSimple(i) {
      SimpleSim(cfg1, cfg2, rel, lim, syms, exact, s1.regs, s2.regs, s1.w, s2.w, i);
      var a := SimpleValue(cfg1, s1.regs, s1.w, i);
      if a.r.Ok? { BindSim(exact, s1.regs, s2.regs, i.dst, a.r.value); }
    } else {
      match i
      case DoCall(c) => CallOutSim(cfg1, cfg2, rel, lim, syms, exact, s1, s2, c);
      case Parallel(calls) => ParallelSim(cfg1, cfg2, rel, lim, syms, exact, s1, s2, calls);
      case Return(op) => OpSim(cfg1, cfg2, rel, lim, syms, exact, s1.regs, s2.regs, s1.w, s2.w, op);
      case Pause => if exact { ExactRegs(s1.regs, s2.regs, exact); }
      case _ =>
    }
  }

  lemma ExactRegs(a: Regs, b: Regs, exact: bool)
    requires RegsRel(exact, a, b) && exact
    ensures a == b
  {
  }

  lemma {:induction false} ForeachSim(cfg1: Config, cfg2: Config, rel: Rel, lim: Option<nat>, syms: set<string>,
                                      exact: bool, s: Stmt, seen1: set<nat>, seen2: set<nat>, s1: St, s2: St)
    requires s.instr.Foreach? && StmtWithin(s, syms) && Ready(cfg1, cfg2, rel, lim, syms, exact, seen1, seen2, s1, s2)
    ensures OutRel(exact, rel, lim, ExecStmt(cfg1, At(0, s.instr), seen1, s1),
                   ExecStmt(cfg2, At(0, s.instr), seen2, s2))
    decreases s, 0, 0
  {
    hide ExecEach;
    hide Simulates;
    hide Iterable;
    hide RegsRel;
    var Foreach(src, v, body) := s.instr;
    RegsSim(exact, s1.regs, s2.regs, src);
    var it := Iterable(Lookup(s1.regs, src));
    if it.Ok? { EachSim(cfg1, cfg2, rel, lim, syms, exact, it.value, v, body, seen1 + {v}, seen2 + {v}, s1, s2); }
  }

  lemma {:induction false} RetrySim(cfg1: Config, cfg2: Config, rel: Rel, lim: Option<nat>, syms: set<string>,
                                    exact: bool, s: Stmt, seen1: set<nat>, seen2: set<nat>, s1: St, s2: St)
    requires s.instr.Try? && StmtWithin(s, syms) && Ready(cfg1, cfg2, rel, lim, syms, exact, seen1, seen2, s1, s2)
    ensures OutRel(exact, rel, lim, ExecStmt(cfg1, At(0, s.instr), seen1, s1),
                   ExecStmt(cfg2, At(0, s.instr), seen2, s2))
    decreases s, 0, 0
  {
    hide ExecTry;
    hide Simulates;
    hide RegsRel;
    var Try(retry, dst, body) := s.instr;
    BindSim(exact, s1.regs, s2.regs, dst, Str("OK"));
    TrySim(cfg1, cfg2, rel, lim, syms, exact, retry, dst, body, seen1 + {dst}, seen2 + {dst},
           St(s1.regs[dst := Str("OK")], s1.w), St(s2.regs[dst := Str("OK")], s2.w));
  }

  lemma {:induction false} IfSim(cfg1: Config, cfg2: Config, rel: Rel, lim: Option<nat>, syms: set<string>, exact: bool,
                                 s: Stmt, seen1: set<nat>, seen2: set<nat>, s1: St, s2: St)
    requires s.instr.If? && StmtWithin(s, syms) && Ready(cfg1, cfg2, rel, lim, syms, exact, seen1, seen2, s1, s2)
    ensures OutRel(exact, rel, lim, ExecStmt(cfg1, At(0, s.instr), seen1, s1),
                   ExecStmt(cfg2, At(0, s.instr), seen2, s2))
    decreases s, 0, 0
  {
    hide ExecBlock;
    hide EvalFrom;
    hide Simulates;
    hide RegsRel;
    var If(cond, thn, els) := s.instr;
    PredSim(cfg1, cfg2, rel, lim, syms, exact, s1.regs, s2.regs, s1.w, s2.w, None, cond, 0);
    var a, b := EvalPred(cfg1, s1.regs, s1.w, None, cond), EvalPred(cfg2, s2.regs, s2.w, None, cond);
    if a.r.Ok? {
      var d := Dsts(thn);
      if Exhausted(lim, a.w) {
        ExhaustedStable(cfg1, lim, syms);
        hide Stable;
        if a.r.value { BlockKeeps(cfg1, ExhaustedInv(lim), AnyExn(), syms, thn, seen1, St(s1.regs, a.w)); }
        else if els.Else? {
          BlockKeeps(cfg1, ExhaustedInv(lim), AnyExn(), syms, els.body, seen1 + d, St(s1.regs, a.w));
        }
      } else if a.r.value {
        BlockSim(cfg1, cfg2, rel, lim, syms, exact, thn, seen1, seen2, St(s1.regs, a.w), St(s2.regs, b.w));
      } else if els.Else? {
        BlockSim(cfg1, cfg2, rel, lim, syms, exact, els.body, seen1 + d, seen2 + d, St(s1.regs, a.w), St(s2.regs, b.w));
      }
    }
  }

  lemma {:induction false} EachSim(cfg1: Config, cfg2: Config, rel: Rel, lim: Option<nat>, syms: set<string>,
                                   exact: bool, xs: seq<Value>, v: nat, body: seq<Stmt>, seen1: set<nat>,
                                   seen2: set<nat>, s1: St, s2: St)
    requires Within(body, syms) && Ready(cfg1, cfg2, rel, lim, syms, exact, seen1, seen2, s1, s2)
    ensures OutRel(exact, rel, lim, ExecEach(cfg1, xs, v, body, seen1, s1), ExecEach(cfg2, xs, v, body, seen2, s2))
    decreases body, 1, |xs|
  {
    hide ExecBlock;
    hide Simulates;
    hide RegsRel;
    if xs != [] {
      BindSim(exact, s1.regs, s2.regs, v, xs[0]);
      var u1, u2 := St(s1.regs[v := xs[0]], s1.w), St(s2.regs[v := xs[0]], s2.w);
      BlockSim(cfg1, cfg2, rel, lim, syms, exact, body, seen1, seen2, u1, u2);
      var a, b := ExecBlock(cfg1, body, seen1, u1), ExecBlock(cfg2, body, seen2, u2);
      if a.flow.Next? {
        if Exhausted(lim, a.st.w) {
          ExhaustedStable(cfg1, lim, syms);
          hide Stable;
          EachKeeps(cfg1, ExhaustedInv(lim), AnyExn(), syms, xs[1..], v, body, seen1, a.st);
        } else {
          EachSim(cfg1, cfg2, rel, lim, syms, exact, xs[1..], v, body, seen1, seen2, a.st, b.st);
        }
      }
    }
  }

  lemma {:induction false} TrySim(cfg1: Config, cfg2: Config, rel: Rel, lim: Option<nat>, syms: set<string>,
                                  exact: bool, left: nat, dst: nat, body: seq<Stmt>, seen1: set<nat>, seen2: set<nat>,
                                  s1: St, s2: St)
    requires Within(body, syms) && Ready(cfg1, cfg2, rel, lim, syms, exact, seen1, seen2, s1, s2)
    ensures OutRel(exact, rel, lim, ExecTry(cfg1, left, dst, body, seen1, s1),
                   ExecTry(cfg2, left, dst, body, seen2, s2))
    decreases body, 1, left
  {
    hide ExecBlock;
    hide Simulates;
    hide RegsRel;
    BlockSim(cfg1, cfg2, rel, lim, syms, exact, body, seen1, seen2, s1, s2);
    var a, b := ExecBlock(cfg1, body, seen1, s1), ExecBlock(cfg2, body, seen2, s2);
    if Exhausted(lim, a.st.w) {
      ExhaustedStable(cfg1, lim, syms);
      hide Stable;
      if a.flow.Fail? && a.flow.e.ToolErr? && left > 0 {
        TryKeeps(cfg1, ExhaustedInv(lim), AnyExn(), syms, left - 1, dst, body, seen1,
                 St(a.st.regs[dst := Str(a.flow.e.code)], a.st.w));
      }
    } else if a.flow.Next? {
      BindSim(exact, a.st.regs, b.st.regs, dst, Str("OK"));
    } else if a.flow.Fail? && a.flow.e.ToolErr? {
      var v := Str(a.flow.e.code);
      BindSim(exact, a.st.regs, b.st.regs, dst, v);
      if left > 0 {
        TrySim(cfg1, cfg2, rel, lim, syms, exact, left - 1, dst, body, seen1, seen2,
               St(a.st.regs[dst := v], a.st.w), St(b.st.regs[dst := v], b.st.w));
      }
    }
  }
}
