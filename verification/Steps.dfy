/** What instructions answer. */
module Steps {
  import opened Common
  import opened Ir
  import opened Runtime
  import opened Semantics

  // ---------------------------------------------------------------- answers

  /** The register, or undefined. */
  predicate Holds(regs: Regs, n: nat, v: Value) {
    if n in regs then v == regs[n] else v == Undef
  }

  /** The statement ends with this answer in `dst`, or with its error. */
  predicate Delivers(st: St, w: World, dst: nat, r: Result, o: Out) {
    match r
    case Ok(v) => o == Out(St(st.regs[dst := v], w), Next)
    case Err(e) => o == Out(St(st.regs, w), Fail(e))
  }

  /** It does, for one operation of the budget. */
  predicate DeliversCharged(cfg: Config, st: St, line: nat, dst: nat, r: Result, o: Out) {
    var w := if line == 0 then st.w else st.w.(line := line);
    Delivers(st, w.(ops := w.ops + 1), dst, if w.ops < cfg.maxOps then r else Err(ToolErr("RATE_LIMITED")), o)
  }

  predicate DeliversFree(st: St, line: nat, dst: nat, r: Result, o: Out) {
    Delivers(st, if line == 0 then st.w else st.w.(line := line), dst, r, o)
  }

  predicate Throws(r: Result) {
    r.Err? && r.error.JsErr?
  }

  // ---------------------------------------------------------------- fields

  /** `v` is the field of `x`, null where there is none. */
  predicate FieldIs(x: Value, name: string, v: Value) {
    if x.Rec? && name in x.fields && x.fields[name] != Undef then v == x.fields[name] else v == Nil
  }

  /** Reading a field throws on null and undefined and on an unknown field. */
  predicate FieldAnswers(cfg: Config, x: Value, f: string, r: Result) {
    if x == Nil || x == Undef || f !in cfg.fields then Throws(r) else r.Ok? && FieldIs(x, cfg.fields[f], r.value)
  }

  lemma FieldRead(cfg: Config, st: St, line: nat, src: nat, f: string, dst: nat, seen: set<nat>, x: Value)
    returns (r: Result)
    requires Holds(st.regs, src, x)
    ensures FieldAnswers(cfg, x, f, r)
    ensures DeliversCharged(cfg, st, line, dst, r, ExecStmt(cfg, At(line, Get(src, f, dst)), seen, st))
    ensures DeliversCharged(cfg, st, line, dst, r, ExecStmt(cfg, At(line, Let(ORegField(src, f), dst)), seen, st))
  {
    r := FldValue(cfg, x, f);
    assert FieldAnswers(cfg, x, f, r);
    hide FldValue;
    hide FieldAnswers;
  }

  /** MAP: the field of every element, in place; it throws on anything but a list of values to read fields of. */
  predicate MapsTo(cfg: Config, v: Value, f: string, r: Result) {
    if f !in cfg.fields || !v.List? || Nil in v.elems || Undef in v.elems then Throws(r)
    else r.Ok? && r.value.List? && |r.value.elems| == |v.elems| &&
         forall i | 0 <= i < |v.elems| :: FieldIs(v.elems[i], cfg.fields[f], r.value.elems[i])
  }

  lemma MapAnswers(cfg: Config, st: St, line: nat, src: nat, f: string, dst: nat, seen: set<nat>, v: Value)
    returns (r: Result)
    requires Holds(st.regs, src, v)
    ensures MapsTo(cfg, v, f, r)
    ensures DeliversCharged(cfg, st, line, dst, r, ExecStmt(cfg, At(line, MapF(src, f, dst)), seen, st))
  {
    r := MapValue(cfg, v, f);
    MapDoes(cfg, v, f);
    hide MapValue;
    hide MapsTo;
  }

  lemma MapDoes(cfg: Config, v: Value, f: string)
    ensures MapsTo(cfg, v, f, MapValue(cfg, v, f))
  {
    if v.List? {
      if Nil in v.elems || Undef in v.elems {
        var i :| 0 <= i < |v.elems| && (v.elems[i] == Nil || v.elems[i] == Undef);
        assert Absent(v.elems[i]);
      } else {
        assert forall i | 0 <= i < |v.elems| :: v.elems[i] in v.elems;
      }
    }
  }

  // ---------------------------------------------------------------- lists

  lemma CountAnswers(cfg: Config, st: St, line: nat, src: nat, dst: nat, seen: set<nat>, v: Value) returns (r: Result)
    requires Holds(st.regs, src, v)
    ensures v == Nil || v == Undef ==> Throws(r)
    ensures v.List? ==> r == Ok(Num(|v.elems|))
    ensures DeliversFree(st, line, dst, r, ExecStmt(cfg, At(line, Count(src, dst)), seen, st))
  {
    r := RtCount(v);
  }

  lemma FirstAnswers(cfg: Config, st: St, line: nat, src: nat, dst: nat, seen: set<nat>, v: Value) returns (r: Result)
    requires Holds(st.regs, src, v)
    ensures v == Nil || v == Undef ==> Throws(r)
    ensures v.List? ==> r == Ok(if v.elems == [] then Nil else v.elems[0])
    ensures DeliversFree(st, line, dst, r, ExecStmt(cfg, At(line, First(src, dst)), seen, st))
  {
    r := RtFirst(v);
  }

  /** SELECT by a number: the element there, or the tool error a TRY can catch; a negative index is refused before the
      list is looked at. A null index counts as 0 against the bounds and selects undefined. */
  predicate Selects(v: Value, i: Value, r: Result) {
    && (i.Num? && i.n < 0 ==> r == Err(ToolErr("INDEX_OUT_OF_RANGE")))
    && ((v == Nil || v == Undef) && !(i.Num? && i.n < 0) ==> Throws(r))
    && (v.List? && i.Num? && i.n >= 0 ==>
          r == if i.n < |v.elems| then Ok(v.elems[i.n]) else Err(ToolErr("INDEX_OUT_OF_RANGE")))
    && (v.List? && i.Nil? ==> r == if v.elems == [] then Err(ToolErr("INDEX_OUT_OF_RANGE")) else Ok(Undef))
  }

  lemma SelectAnswers(cfg: Config, st: St, line: nat, src: nat, idx: nat, dst: nat, seen: set<nat>, v: Value, i: Value)
    returns (r: Result)
    requires Holds(st.regs, src, v) && Holds(st.regs, idx, i)
    ensures Selects(v, i, r)
    ensures DeliversCharged(cfg, st, line, dst, r, ExecStmt(cfg, At(line, Select(src, OReg(idx), dst)), seen, st))
  {
    r := SelectValue(v, i);
    SelectDoes(v, i);
    hide SelectValue;
    hide Selects;
    hide Iterable;
    hide Keep;
    hide EvalOps;
    hide RtFld;
    hide RtConstant;
    hide RtCount;
    hide RtFirst;
    hide RtExtreme;
    hide RtMap;
    hide RtSort;
  }

  lemma SelectDoes(v: Value, i: Value)
    ensures Selects(v, i, SelectValue(v, i))
  {
  }

  // ---------------------------------------------------------------- FOREACH

  /** A loop over `xs` seen from outside: it enters its body with each element in turn, each time in the state the last
      one left, until the elements are used up or the body does not fall through. */
  ghost predicate Visits(cfg: Config, xs: seq<Value>, v: nat, body: seq<Stmt>, seen: set<nat>, states: seq<St>,
                         o: Out) {
    && 1 <= |states| <= |xs| + 1
    && (forall i | 0 <= i < |states| - 1 ::
          ExecBlock(cfg, body, seen, St(states[i].regs[v := xs[i]], states[i].w)) == Out(states[i + 1], Next))
    && var last := |states| - 1;
       if last == |xs| then o == Out(states[last], Next)
       else o == ExecBlock(cfg, body, seen, St(states[last].regs[v := xs[last]], states[last].w)) && !o.flow.Next?
  }

  lemma {:induction false} EachVisits(cfg: Config, xs: seq<Value>, v: nat, body: seq<Stmt>, seen: set<nat>, st: St)
    returns (states: seq<St>)
    ensures Visits(cfg, xs, v, body, seen, states, ExecEach(cfg, xs, v, body, seen, st)) && states[0] == st
    decreases xs
  {
    hide ExecBlock;
    states := [st];
    if xs != [] {
      var o := ExecBlock(cfg, body, seen, St(st.regs[v := xs[0]], st.w));
      if o.flow.Next? {
        var rest := EachVisits(cfg, xs[1..], v, body, seen, o.st);
        states := [st] + rest;
        forall i | 0 <= i < |states| - 1
          ensures ExecBlock(cfg, body, seen, St(states[i].regs[v := xs[i]], states[i].w)) == Out(states[i + 1], Next)
        {
          if i > 0 { assert states[i] == rest[i - 1] && states[i + 1] == rest[i] && xs[1..][i - 1] == xs[i]; }
        }
      }
    }
  }

  lemma ForeachVisits(cfg: Config, st: St, line: nat, src: nat, v: nat, body: seq<Stmt>, seen: set<nat>,
                      xs: seq<Value>) returns (states: seq<St>)
    requires Holds(st.regs, src, List(xs))
    ensures Visits(cfg, xs, v, body, seen + {v}, states, ExecStmt(cfg, At(line, Foreach(src, v, body)), seen, st))
    ensures states[0] == St(st.regs, if line == 0 then st.w else st.w.(line := line))
  {
    hide ExecBlock;
    hide ExecEach;
    hide Visits;
    states := EachVisits(cfg, xs, v, body, seen + {v}, Enter(st, line));
  }

  // ---------------------------------------------------------------- predicates

  /** Clauses `a` to `b` form a group: all joined by AND, with OR or an end around them. */
  predicate Group(p: Pred, a: nat, b: nat) {
    && a <= b < |p.clauses|
    && (a == 0 || p.ops[a - 1].OR?) && (b == |p.ops| || p.ops[b].OR?)
    && forall i | a <= i < b :: p.ops[i].AND?
  }

  /** Some group from clause `i` on is true throughout; of the group `i` stands in, its rest from `i`. */
  ghost predicate SomeGroup(p: Pred, truth: seq<bool>, i: nat)
    requires |truth| == |p.clauses|
  {
    exists a: nat, b: nat :: i <= a <= b < |truth| && RestOfGroup(p, i, a, b) && AllTrue(truth, a, b)
  }

  predicate RestOfGroup(p: Pred, i: nat, a: nat, b: nat)
    requires i <= a <= b < |p.clauses|
  {
    && (a == i || p.ops[a - 1].OR?) && (b == |p.ops| || p.ops[b].OR?)
    && forall k | a <= k < b :: p.ops[k].AND?
  }

  predicate AllTrue(truth: seq<bool>, a: nat, b: nat)
    requires b < |truth|
  {
    forall k | a <= k <= b :: truth[k]
  }

  /** Whenever it answers, clause `i` answers `truth[i]`. */
  ghost predicate Truths(cfg: Config, regs: Regs, elem: Option<Value>, p: Pred, truth: seq<bool>) {
    |truth| == |p.clauses| &&
    forall i, u: World {:trigger EvalClause(cfg, regs, u, elem, p.clauses[i])} | 0 <= i < |truth| ::
      var c := EvalClause(cfg, regs, u, elem, p.clauses[i]); c.r.Ok? ==> c.r.value == truth[i]
  }

  lemma {:induction false} NextGroupStarts(p: Pred, i: nat)
    requires i < |p.clauses|
    ensures var j := NextGroup(p, i); i < j && forall k | i <= k < j - 1 :: p.ops[k].AND?
    decreases |p.clauses| - i
  {
    if i < |p.ops| && !p.ops[i].OR? { NextGroupStarts(p, i + 1); }
  }

  lemma {:induction false} GroupsFrom(cfg: Config, regs: Regs, w: World, elem: Option<Value>, p: Pred, truth: seq<bool>,
                                      i: nat)
    requires Truths(cfg, regs, elem, p, truth) && i < |p.clauses|
    ensures var o := EvalFrom(cfg, regs, w, elem, p, i); o.r.Ok? ==> o.r.value == SomeGroup(p, truth, i)
    decreases |p.clauses| - i
  {
    hide EvalClause;
    hide NextGroup;
    var c := EvalClause(cfg, regs, w, elem, p.clauses[i]);
    if c.r.Ok? {
      if truth[i] {
        if i == |p.ops| || p.ops[i].OR? {
          assert RestOfGroup(p, i, i, i) && AllTrue(truth, i, i);
        } else {
          GroupsFrom(cfg, regs, c.w, elem, p, truth, i + 1);
          ExtendGroup(p, truth, i);
        }
      } else {
        var j := NextGroup(p, i);
        NextGroupStarts(p, i);
        if j < |p.clauses| { GroupsFrom(cfg, regs, c.w, elem, p, truth, j); }
        SkipGroup(p, truth, i, j);
      }
    }
  }

  lemma ExtendGroup(p: Pred, truth: seq<bool>, i: nat)
    requires |truth| == |p.clauses| && i < |p.ops| && p.ops[i].AND? && truth[i]
    ensures SomeGroup(p, truth, i) <==> SomeGroup(p, truth, i + 1)
  {
    if SomeGroup(p, truth, i) {
      var a: nat, b: nat :| i <= a <= b < |truth| && RestOfGroup(p, i, a, b) && AllTrue(truth, a, b);
      if a == i {
        assert b > i;
        assert RestOfGroup(p, i + 1, i + 1, b) && AllTrue(truth, i + 1, b);
      } else {
        assert RestOfGroup(p, i + 1, a, b);
      }
    }
    if SomeGroup(p, truth, i + 1) {
      var a: nat, b: nat :| i + 1 <= a <= b < |truth| && RestOfGroup(p, i + 1, a, b) && AllTrue(truth, a, b);
      if a == i + 1 {
        assert RestOfGroup(p, i, i, b) && AllTrue(truth, i, b);
      } else {
        assert RestOfGroup(p, i, a, b);
      }
    }
  }

  lemma SkipGroup(p: Pred, truth: seq<bool>, i: nat, j: nat)
    requires |truth| == |p.clauses| && i < j <= |p.clauses| && !truth[i]
    requires (forall k | i <= k < j - 1 :: p.ops[k].AND?) && (j < |p.clauses| ==> p.ops[j - 1].OR?)
    ensures SomeGroup(p, truth, i) <==> j < |p.clauses| && SomeGroup(p, truth, j)
  {
    if SomeGroup(p, truth, i) {
      var a: nat, b: nat :| i <= a <= b < |truth| && RestOfGroup(p, i, a, b) && AllTrue(truth, a, b);
      assert a != i;
      assert p.ops[a - 1].OR?;
      assert a >= j;
      assert RestOfGroup(p, j, a, b);
    }
    if j < |p.clauses| && SomeGroup(p, truth, j) {
      var a: nat, b: nat :| j <= a <= b < |truth| && RestOfGroup(p, j, a, b) && AllTrue(truth, a, b);
      assert RestOfGroup(p, i, a, b);
    }
  }

  /** AND binds tighter than OR: a predicate that answers is true exactly when all clauses of one of its groups are. */
  lemma PredAnswers(cfg: Config, regs: Regs, w: World, elem: Option<Value>, p: Pred, truth: seq<bool>)
    requires Truths(cfg, regs, elem, p, truth)
    ensures var o := EvalPred(cfg, regs, w, elem, p);
            o.r.Ok? ==> (o.r.value <==> exists a: nat, b: nat :: Group(p, a, b) && AllTrue(truth, a, b))
  {
    assert |truth| == |p.clauses|;
    hide Truths;
    hide EvalFrom;
    GroupsFrom(cfg, regs, w, elem, p, truth, 0);
    if SomeGroup(p, truth, 0) {
      var a: nat, b: nat :| 0 <= a <= b < |truth| && RestOfGroup(p, 0, a, b) && AllTrue(truth, a, b);
      assert Group(p, a, b);
    }
    forall a: nat, b: nat | Group(p, a, b) && AllTrue(truth, a, b)
      ensures SomeGroup(p, truth, 0)
    {
      assert RestOfGroup(p, 0, a, b);
    }
  }
}
