/** Record ids stay distinct and fresh. */
module Ids {
  import opened Common
  import opened Decimal
  import opened Ir
  import opened Runtime
  import opened Semantics
  import opened Effects
  import opened Invariant
  import opened Simulation

  predicate Distinct(rows: seq<Value>) {
    forall i, j | 0 <= i < j < |rows| :: RecId(rows[i]) != RecId(rows[j])
  }

  /** Every live id of the form `entity_k` has k at most `n`. */
  ghost predicate BoundedBy(rows: seq<Value>, entity: string, n: nat) {
    forall i, k: nat | 0 <= i < |rows| && RecId(rows[i]) == IdOf(entity, k) :: k <= n
  }

  predicate OneLine(s: string) {
    forall i | 0 <= i < |s| :: !IsLineBreak(s[i])
  }

  /** Ids are distinct per entity, and a counter in use is at least every suffix it could collide with. */
  ghost predicate IdsOk(w: World) {
    && (forall e | e in w.store.entities :: Distinct(w.store.entities[e]))
    && (forall e | e in w.counters :: BoundedBy(Rows(w.store, e), e, w.counters[e]))
  }

  // ---------------------------------------------------------------- the suffix regex

  lemma {:induction false} DigitRunOf(s: string, t: string)
    requires AllDigits(t) && (s == "" || !IsDigit(s[|s| - 1]))
    ensures DigitRun(s + t) == |t|
    decreases t
  {
    if t == "" {
      assert s + t == s;
    } else {
      assert (s + t)[..|s + t| - 1] == s + t[..|t| - 1];
      DigitRunOf(s, t[..|t| - 1]);
    }
  }

  /** `nextId` reads back the number it wrote. */
  lemma SuffixOfId(entity: string, n: nat)
    requires OneLine(entity)
    ensures IdSuffix(IdOf(entity, n)) == Some(n)
  {
    var p, t := entity + "_", Show(n);
    var s := p + t;
    assert p[|p| - 1] == '_';
    DigitRunOf(p, t);
    assert entity + "_" + Show(n) == s;
    assert s[|s| - |t|..] == t;
    assert s[|s| - |t| - 1] == '_';
    ReadShow(n);
    forall i | 0 <= i < |s|
      ensures !IsLineBreak(s[i])
    {
      if i >= |p| { assert IsDigit(t[i - |p|]); }
    }
  }

  lemma {:induction false} MaxSuffixBounds(rows: seq<Value>, entity: string)
    requires OneLine(entity)
    ensures BoundedBy(rows, entity, MaxSuffix(rows))
    decreases rows
  {
    hide IdSuffix;
    hide IdOf;
    hide RecId;
    if rows != [] {
      var n := |rows| - 1;
      MaxSuffixBounds(rows[..n], entity);
      forall i, k: nat | 0 <= i < |rows| && RecId(rows[i]) == IdOf(entity, k)
        ensures k <= MaxSuffix(rows)
      {
        if i < n {
          assert rows[..n][i] == rows[i];
        } else {
          SuffixOfId(entity, k);
        }
      }
    }
  }

  lemma CounterBounds(w: World, entity: string)
    requires IdsOk(w) && OneLine(entity)
    ensures BoundedBy(Rows(w.store, entity), entity, Counter(w.store, w.counters, entity))
  {
    if entity !in w.counters { MaxSuffixBounds(Rows(w.store, entity), entity); }
  }

  lemma IdsDiffer(entity: string, m: nat, n: nat)
    requires m != n
    ensures IdOf(entity, m) != IdOf(entity, n)
  {
    if IdOf(entity, m) == IdOf(entity, n) {
      var p := entity + "_";
      assert (p + Show(m))[|p|..] == Show(m) && (p + Show(n))[|p|..] == Show(n);
      ShowInjective(m, n);
    }
  }

  // ---------------------------------------------------------------- descriptors that leave `id` alone

  predicate SafeImpl(impl: Impl) {
    match impl
    case Create(e, defaults, names) =>
      OneLine(e) && (forall i | 0 <= i < |defaults| :: defaults[i].0 != "id") &&
          (forall i | 0 <= i < |names| :: names[i] != Some("id"))
    case Update(_, _, consts, sets) =>
      (forall i | 0 <= i < |consts| :: consts[i].0 != "id") && (forall i | 0 <= i < |sets| :: sets[i].0 != "id")
    case Foreign(_) => false
    case _ => true
  }

  /** A foreign tool that leaves the records alone. */
  ghost predicate KeepsEntities(cfg: Config, name: string) {
    forall store, params :: cfg.foreign(name, store, params).0.entities == store.entities
  }

  ghost predicate SafeTool(cfg: Config, impl: Impl) {
    if impl.Foreign? then KeepsEntities(cfg, impl.name) else SafeImpl(impl)
  }

  ghost predicate SafeTools(cfg: Config, syms: set<string>) {
    forall sym | sym in syms && sym in cfg.tools :: SafeTool(cfg, cfg.tools[sym].impl)
  }

  predicate SameId(a: map<string, Value>, b: map<string, Value>) {
    ("id" in a <==> "id" in b) && ("id" in a ==> a["id"] == b["id"])
  }

  lemma {:induction false} AppliedId(rec: map<string, Value>, defaults: seq<(string, Default)>, now: int)
    requires forall i | 0 <= i < |defaults| :: defaults[i].0 != "id"
    ensures SameId(rec, Applied(rec, defaults, now))
    decreases defaults
  {
    if defaults != [] {
      var (k, d) := defaults[0];
      assert forall i | 0 <= i < |defaults[1..]| :: defaults[1..][i] == defaults[i + 1];
      AppliedId(rec[k := match d case Fixed(v) => v case NowDefault => Num(now)], defaults[1..], now);
    }
  }

  lemma {:induction false} WithParamsId(rec: map<string, Value>, names: seq<Option<string>>, params: seq<Value>, i: nat)
    requires i <= |names| && forall j | 0 <= j < |names| :: names[j] != Some("id")
    ensures SameId(rec, WithParams(rec, names, params, i))
    decreases |names| - i
  {
    if i < |names| {
      var v := ParamAt(params, i);
      var skip := names[i].None? || names[i].value == "" || Absent(v);
      WithParamsId(if skip then rec else rec[names[i].value := v], names, params, i + 1);
    }
  }

  lemma {:induction false} WithConstsId(rec: map<string, Value>, sets: seq<(string, Value)>)
    requires forall i | 0 <= i < |sets| :: sets[i].0 != "id"
    ensures SameId(rec, WithConsts(rec, sets))
    decreases sets
  {
    if sets != [] {
      assert forall i | 0 <= i < |sets[1..]| :: sets[1..][i] == sets[i + 1];
      WithConstsId(rec[sets[0].0 := sets[0].1], sets[1..]);
    }
  }

  lemma {:induction false} WithSetParamsId(rec: map<string, Value>, sets: seq<(string, nat)>, params: seq<Value>)
    requires forall i | 0 <= i < |sets| :: sets[i].0 != "id"
    ensures SameId(rec, WithSetParams(rec, sets, params))
    decreases sets
  {
    if sets != [] {
      assert forall i | 0 <= i < |sets[1..]| :: sets[1..][i] == sets[i + 1];
      var v := ParamAt(params, sets[0].1);
      WithSetParamsId(if Absent(v) then rec else rec[sets[0].0 := v], sets[1..], params);
    }
  }

  lemma CreatedHasId(cfg: Config, impl: Impl, n: nat, params: seq<Value>)
    requires impl.Create? && SafeImpl(impl)
    ensures RecId(Created(cfg, impl, n, params)) == IdOf(impl.entity, n)
  {
    var rec := map["id" := IdOf(impl.entity, n)];
    AppliedId(rec, impl.defaults, cfg.now);
    WithParamsId(Applied(rec, impl.defaults, cfg.now), impl.paramFields, params, 0);
  }

  lemma UpdatedKeepsId(impl: Impl, rec: Value, params: seq<Value>)
    requires impl.Update? && SafeImpl(impl)
    ensures RecId(Updated(impl, rec, params)) == RecId(rec)
  {
    WithConstsId(RecFields(rec), impl.setConst);
    WithSetParamsId(WithConsts(RecFields(rec), impl.setConst), impl.setFromParams, params);
  }

  // ---------------------------------------------------------------- one operation

  /** A created record's id is new among the live rows of its entity. */
  lemma CreateIsFresh(cfg: Config, w: World, impl: Impl, params: seq<Value>)
    requires impl.Create? && SafeImpl(impl) && IdsOk(w)
    ensures var o := RunImpl(cfg, impl, w.store, w.counters, params);
            && o.r.Ok? && RecId(o.r.value) == IdOf(impl.entity, o.counters[impl.entity])
            && Rows(o.store, impl.entity) == Rows(w.store, impl.entity) + [o.r.value]
            && forall i | 0 <= i < |Rows(w.store, impl.entity)| ::
                 RecId(Rows(w.store, impl.entity)[i]) != RecId(o.r.value)
  {
    var e := impl.entity;
    CounterBounds(w, e);
    CreatedHasId(cfg, impl, Counter(w.store, w.counters, e) + 1, params);
  }

  lemma RemovalDistinct(rows: seq<Value>, i: nat)
    requires i < |rows| && Distinct(rows)
    ensures Distinct(rows[..i] + rows[i + 1..])
  {
    var out := rows[..i] + rows[i + 1..];
    forall a, b | 0 <= a < b < |out|
      ensures RecId(out[a]) != RecId(out[b])
    {
      assert out[a] == rows[if a < i then a else a + 1] && out[b] == rows[if b < i then b else b + 1];
    }
  }

  lemma SetRowsKeeps(w: World, e: string, rows: seq<Value>, counters: map<string, nat>)
    requires IdsOk(w) && Distinct(rows)
    requires counters == w.counters || (e in counters && counters == w.counters[e := counters[e]])
    requires e in counters ==> BoundedBy(rows, e, counters[e])
    ensures IdsOk(w.(store := SetRows(w.store, e, rows), counters := counters))
  {
    hide RecId;
    hide IdOf;
    hide BoundedBy;
  }

  lemma CreateKeepsIds(cfg: Config, w: World, impl: Impl, params: seq<Value>)
    requires impl.Create? && SafeImpl(impl) && IdsOk(w)
    ensures var o := RunImpl(cfg, impl, w.store, w.counters, params);
            IdsOk(w.(store := o.store, counters := o.counters))
  {
    hide Created;
    hide IdOf;
    hide RecId;
    hide IdsOk;
    var e := impl.entity;
    var o := RunImpl(cfg, impl, w.store, w.counters, params);
    CreateIsFresh(cfg, w, impl, params);
    CounterBounds(w, e);
    var rows, rec, n := Rows(w.store, e), o.r.value, o.counters[e];
    assert Distinct(rows) by { RowsDistinct(w, e); }
    forall i, k: nat | 0 <= i < |rows + [rec]| && RecId((rows + [rec])[i]) == IdOf(e, k)
      ensures k <= n
    {
      if i == |rows| && k != n { IdsDiffer(e, k, n); }
    }
    SetRowsKeeps(w, e, rows + [rec], o.counters);
  }

  lemma RowsDistinct(w: World, e: string)
    requires IdsOk(w)
    ensures Distinct(Rows(w.store, e)) && (e in w.counters ==> BoundedBy(Rows(w.store, e), e, w.counters[e]))
  {
  }

  lemma UpdateKeepsIds(w: World, impl: Impl, i: nat, params: seq<Value>)
    requires impl.Update? && SafeImpl(impl) && IdsOk(w) && i < |Rows(w.store, impl.entity)|
    ensures var rows := Rows(w.store, impl.entity);
            IdsOk(w.(store := SetRows(w.store, impl.entity, rows[i := Updated(impl, rows[i], params)])))
  {
    hide Updated;
    hide IdsOk;
    hide IdOf;
    hide RecId;
    var e := impl.entity;
    var rows := Rows(w.store, e);
    var out := rows[i := Updated(impl, rows[i], params)];
    RowsDistinct(w, e);
    UpdatedKeepsId(impl, rows[i], params);
    assert forall j | 0 <= j < |rows| :: RecId(out[j]) == RecId(rows[j]);
    SetRowsKeeps(w, e, out, w.counters);
  }

  lemma DeleteKeepsIds(w: World, e: string, i: nat)
    requires IdsOk(w) && i < |Rows(w.store, e)|
    ensures var rows := Rows(w.store, e); IdsOk(w.(store := SetRows(w.store, e, rows[..i] + rows[i + 1..])))
  {
    hide IdsOk;
    hide IdOf;
    hide RecId;
    var rows := Rows(w.store, e);
    var out := rows[..i] + rows[i + 1..];
    RowsDistinct(w, e);
    RemovalDistinct(rows, i);
    assert forall j | 0 <= j < |out| :: out[j] == rows[if j < i then j else j + 1];
    SetRowsKeeps(w, e, out, w.counters);
  }

  /** Every tool operation keeps ids distinct and counters ahead of them. */
  lemma ImplKeepsIds(cfg: Config, w: World, impl: Impl, params: seq<Value>)
    requires SafeTool(cfg, impl) && IdsOk(w)
    ensures var o := RunImpl(cfg, impl, w.store, w.counters, params);
            IdsOk(w.(store := o.store, counters := o.counters))
  {
    hide KeepWhere;
    hide Mapped;
    hide FindIndex;
    hide Updated;
    hide Created;
    hide IdsOk;
    hide SafeImpl;
    match impl
    case Create(_, _, _) => CreateKeepsIds(cfg, w, impl, params);
    case Update(e, ip, _, _) =>
      var i := FindIndex(Rows(w.store, e), ParamAt(params, ip));
      if i < |Rows(w.store, e)| { UpdateKeepsIds(w, impl, i, params); }
    case Delete(e, ip) =>
      var i := FindIndex(Rows(w.store, e), ParamAt(params, ip));
      if i < |Rows(w.store, e)| { DeleteKeepsIds(w, e, i); }
    case Send(_, _) => SameRows(w, RunImpl(cfg, impl, w.store, w.counters, params).store);
    case Pay(_) => SameRows(w, RunImpl(cfg, impl, w.store, w.counters, params).store);
    case Foreign(_) => SameRows(w, RunImpl(cfg, impl, w.store, w.counters, params).store);
    case _ =>
  }

  lemma SameRows(w: World, store: Store)
    requires IdsOk(w) && store.entities == w.store.entities
    ensures IdsOk(w.(store := store))
  {
  }

  lemma {:induction false} CallKeepsIds(cfg: Config, w: World, sym: string, args: seq<Value>)
    requires SafeTools(cfg, {sym}) && IdsOk(w)
    ensures IdsOk(RtCall(cfg, w, sym, args).w)
  {
    hide Narrowed;
    hide RunImpl;
    hide Inject;
    hide IdsOk;
    assert IdsOk(Tick(w)) by { SameStore(w, Tick(w)); }
    if sym in cfg.tools && Narrowed(cfg.tools[sym].params, args, 0).Ok? {
      var tool, params := cfg.tools[sym], Narrowed(cfg.tools[sym].params, args, 0).value;
      ImplKeepsIds(cfg, w, tool.impl, params);
      var o := RunImpl(cfg, tool.impl, w.store, w.counters, params);
      var s := RtCall(cfg, w, sym, args);
      if s.w.store == w.store && s.w.counters == w.counters { SameStore(w, s.w); }
      else { SameStore(w.(store := o.store, counters := o.counters), s.w); }
    } else {
      SameStore(w, RtCall(cfg, w, sym, args).w);
    }
  }

  lemma SameStore(a: World, b: World)
    requires IdsOk(a) && a.store == b.store && a.counters == b.counters
    ensures IdsOk(b)
  {
  }

  // ---------------------------------------------------------------- runs

  ghost function IdsInv(): Inv {
    (w: World) => IdsOk(w)
  }

  /** Whatever program runs, and however it ends, ids are distinct per entity at the end, if the tools it calls leave
      `id` alone and its foreign tools the records. */
  lemma RunKeepsIds(cfg: Config, body: seq<Stmt>, init: set<nat>, w: World)
    requires SafeTools(cfg, Symbols(body)) && IdsOk(w)
    ensures IdsOk(RunBody(cfg, body, init, w).st.w)
  {
    hide ExecBlock;
    hide IdsOk;
    hide SafeTool;
    hide Symbols;
    var syms := Symbols(body);
    SymbolsWithin(body);
    assert Stable(cfg, IdsInv(), AnyExn(), syms) by {
      forall w1 | IdsOk(w1)
        ensures IdsOk(Tick(w1))
      {
        SameStore(w1, Tick(w1));
      }
      forall w1, l: nat | IdsOk(w1)
        ensures IdsOk(MarkLine(w1, l))
      {
        SameStore(w1, MarkLine(w1, l));
      }
      forall w1, sym, args | IdsOk(w1) && sym in syms
        ensures StepOk(IdsInv(), AnyExn(), RtCall(cfg, w1, sym, args))
      {
        CallKeepsIds(cfg, w1, sym, args);
      }
    }
    BlockKeeps(cfg, IdsInv(), AnyExn(), syms, body, init, St(InitialRegs(cfg, init), w));
  }

  // ---------------------------------------------------------------- runs as scripts

  /** The counter of an entity never moves back once set. */
  lemma {:induction false} CallCountsUp(cfg: Config, w: World, sym: string, args: seq<Value>, e: string)
    requires e in w.counters
    ensures var w' := RtCall(cfg, w, sym, args).w; e in w'.counters && w'.counters[e] >= w.counters[e]
  {
    hide Narrowed;
    hide Inject;
    hide Created;
    hide Updated;
    hide FindIndex;
    hide KeepWhere;
    hide Mapped;
  }

  /** What a run does to its world: charge the budget, mark a line, call a tool. */
  datatype Event = Charge | Mark(line: nat) | Invoke(tool: string, args: seq<Value>)

  function Take(cfg: Config, w: World, ev: Event): Step {
    match ev
    case Charge => Step(Tick(w), Ok(Nil))
    case Mark(line) => Step(MarkLine(w, line), Ok(Nil))
    case Invoke(tool, args) => RtCall(cfg, w, tool, args)
  }

  function Play(cfg: Config, w: World, script: seq<Event>): World
    decreases script
  {
    if script == [] then w else Play(cfg, Take(cfg, w, script[0]).w, script[1..])
  }

  datatype Answer = Answer(tool: string, r: Result)

  /** The logged calls of a script with what they returned, in order. */
  function Answers(cfg: Config, w: World, script: seq<Event>): seq<Answer>
    decreases script
  {
    if script == [] then []
    else
      var s := Take(cfg, w, script[0]);
      (if script[0].Invoke? && s.w.calls != w.calls then [Answer(script[0].tool, s.r)] else []) +
          Answers(cfg, s.w, script[1..])
  }

  predicate ScriptWithin(script: seq<Event>, syms: set<string>) {
    forall i | 0 <= i < |script| && script[i].Invoke? :: script[i].tool in syms
  }

  /** A call logs at most one entry, of its tool and with its outcome; unlogged, it issues no id. */
  lemma CallLogs(cfg: Config, w: World, sym: string, args: seq<Value>)
    ensures var s := RtCall(cfg, w, sym, args);
            if s.w.calls == w.calls then s.w.counters == w.counters && s.r.Err?
            else |s.w.calls| == |w.calls| + 1 && w.calls <= s.w.calls && s.w.calls[|w.calls|].tool == sym &&
                 s.w.calls[|w.calls|].ok == s.r.Ok? && sym in cfg.tools
  {
    hide Narrowed;
    hide RunImpl;
    hide Inject;
  }

  /** The answers are those of the log's new entries, one each, in order. */
  ghost predicate Answered(answers: seq<Answer>, before: seq<CallEntry>, after: seq<CallEntry>) {
    && |after| == |before| + |answers| && before <= after
    && forall k | 0 <= k < |answers| ::
         after[|before| + k].tool == answers[k].tool && after[|before| + k].ok == answers[k].r.Ok?
  }

  lemma {:induction false} PlayLogs(cfg: Config, w: World, script: seq<Event>)
    ensures Answered(Answers(cfg, w, script), w.calls, Play(cfg, w, script).calls)
    decreases script
  {
    hide RtCall;
    if script != [] {
      var ev := script[0];
      var s := Take(cfg, w, ev);
      PlayLogs(cfg, s.w, script[1..]);
      if ev.Invoke? { CallLogs(cfg, w, ev.tool, ev.args); }
      var tail, all := Answers(cfg, s.w, script[1..]), Answers(cfg, w, script);
      var after := Play(cfg, w, script).calls;
      if s.w.calls != w.calls {
        assert all == [Answer(ev.tool, s.r)] + tail;
        forall k | 0 <= k < |all|
          ensures after[|w.calls| + k].tool == all[k].tool && after[|w.calls| + k].ok == all[k].r.Ok?
        {
          if k > 0 { assert after[|s.w.calls| + (k - 1)].tool == tail[k - 1].tool; }
        }
      } else {
        assert all == tail;
      }
    }
  }

  lemma {:induction false} PlayMore(cfg: Config, w: World, script: seq<Event>, ev: Event)
    ensures Play(cfg, w, script + [ev]) == Take(cfg, Play(cfg, w, script), ev).w
    decreases script
  {
    hide Take;
    if script == [] {
      assert (script + [ev])[1..] == [];
    } else {
      assert (script + [ev])[1..] == script[1..] + [ev];
      PlayMore(cfg, Take(cfg, w, script[0]).w, script[1..], ev);
    }
  }

  lemma {:induction false} PlayAppend(cfg: Config, w: World, a: seq<Event>, b: seq<Event>)
    ensures Play(cfg, w, a + b) == Play(cfg, Play(cfg, w, a), b)
    decreases a
  {
    hide Take;
    if a == [] {
      assert a + b == b;
    } else {
      assert (a + b)[1..] == a[1..] + b;
      PlayAppend(cfg, Take(cfg, w, a[0]).w, a[1..], b);
    }
  }

  ghost predicate Played(cfg: Config, w0: World, syms: set<string>, w: World) {
    exists script :: ScriptWithin(script, syms) && Play(cfg, w0, script) == w
  }

  ghost function PlayedInv(cfg: Config, w0: World, syms: set<string>): Inv {
    (w: World) => Played(cfg, w0, syms, w)
  }

  lemma PlayedOn(cfg: Config, w0: World, syms: set<string>, w: World, ev: Event)
    requires Played(cfg, w0, syms, w) && (ev.Invoke? ==> ev.tool in syms)
    ensures Played(cfg, w0, syms, Take(cfg, w, ev).w)
  {
    hide Play;
    hide Take;
    var script :| ScriptWithin(script, syms) && Play(cfg, w0, script) == w;
    PlayMore(cfg, w0, script, ev);
    assert ScriptWithin(script + [ev], syms);
  }

  lemma PlayedStable(cfg: Config, w: World, syms: set<string>)
    ensures Stable(cfg, PlayedInv(cfg, w, syms), AnyExn(), syms) && Played(cfg, w, syms, w)
  {
    hide Played;
    hide RtCall;
    forall w1 | Played(cfg, w, syms, w1)
      ensures Played(cfg, w, syms, Tick(w1))
    {
      PlayedOn(cfg, w, syms, w1, Charge);
    }
    forall w1, l: nat | Played(cfg, w, syms, w1)
      ensures Played(cfg, w, syms, MarkLine(w1, l))
    {
      PlayedOn(cfg, w, syms, w1, Mark(l));
    }
    forall w1, sym, args | Played(cfg, w, syms, w1) && sym in syms
      ensures StepOk(PlayedInv(cfg, w, syms), AnyExn(), RtCall(cfg, w1, sym, args))
    {
      PlayedOn(cfg, w, syms, w1, Invoke(sym, args));
    }
    NothingPlayed(cfg, w, syms);
  }

  /** Every run is such a script over the tools of its text. */
  lemma RunIsScript(cfg: Config, body: seq<Stmt>, init: set<nat>, w: World)
    ensures Played(cfg, w, Symbols(body), RunBody(cfg, body, init, w).st.w)
  {
    hide ExecBlock;
    hide Symbols;
    hide Played;
    var syms := Symbols(body);
    SymbolsWithin(body);
    PlayedStable(cfg, w, syms);
    hide Stable;
    BlockKeeps(cfg, PlayedInv(cfg, w, syms), AnyExn(), syms, body, init, St(InitialRegs(cfg, init), w));
  }

  lemma NothingPlayed(cfg: Config, w: World, syms: set<string>)
    ensures Played(cfg, w, syms, w)
  {
    assert ScriptWithin([], syms) && Play(cfg, w, []) == w;
  }

  // ---------------------------------------------------------------- no id is issued twice

  /** Two ids are the same only if entity and number are. */
  lemma IdsApart(e1: string, m: nat, e2: string, n: nat)
    ensures IdOf(e1, m) == IdOf(e2, n) ==> e1 == e2 && m == n
  {
    if IdOf(e1, m) == IdOf(e2, n) {
      var p, q := e1 + "_", e2 + "_";
      assert p[|p| - 1] == '_' && q[|q| - 1] == '_';
      DigitRunOf(p, Show(m));
      DigitRunOf(q, Show(n));
      assert p + Show(m) == q + Show(n);
      assert |p| == |q|;
      assert (p + Show(m))[|p|..] == Show(m) && (q + Show(n))[|q|..] == Show(n);
      ShowInjective(m, n);
      assert p[..|e1|] == e1 && q[..|e2|] == e2;
      assert (p + Show(m))[..|p|] == p && (q + Show(n))[..|q|] == q;
    }
  }

  predicate IssuesId(cfg: Config, a: Answer) {
    a.tool in cfg.tools && cfg.tools[a.tool].impl.Create? && a.r.Ok?
  }

  /** Create descriptors leave the id alone. */
  predicate SafeCreates(cfg: Config, syms: set<string>) {
    forall sym | sym in syms && sym in cfg.tools && cfg.tools[sym].impl.Create? :: SafeImpl(cfg.tools[sym].impl)
  }

  lemma CreateCall(cfg: Config, w: World, sym: string, args: seq<Value>)
    requires sym in cfg.tools && cfg.tools[sym].impl.Create? && SafeImpl(cfg.tools[sym].impl) &&
             RtCall(cfg, w, sym, args).r.Ok?
    ensures var s, e := RtCall(cfg, w, sym, args), cfg.tools[sym].impl.entity;
            e in s.w.counters && s.w.counters[e] == Counter(w.store, w.counters, e) + 1 &&
                RecId(s.r.value) == IdOf(e, s.w.counters[e])
  {
    hide Narrowed;
    hide Inject;
    hide Created;
    hide Counter;
    var tool := cfg.tools[sym];
    var params := Narrowed(tool.params, args, 0).value;
    CreatedHasId(cfg, tool.impl, Counter(w.store, w.counters, tool.impl.entity) + 1, params);
  }

  /** The id issued by answer `a` is above the counter `n` of its entity `e`, or of another entity. */
  ghost predicate Above(a: Answer, e: string, n: nat) {
    a.r.Ok? && exists e1, k: nat :: RecId(a.r.value) == IdOf(e1, k) && (e1 == e ==> k > n)
  }

  /** A create in a script numbers above the counters the script started with. */
  lemma {:induction false} LaterCreateIsLarger(cfg: Config, w: World, script: seq<Event>, syms: set<string>, j: nat,
                                               e: string)
    requires ScriptWithin(script, syms) && SafeCreates(cfg, syms) && e in w.counters
    requires j < |Answers(cfg, w, script)| && IssuesId(cfg, Answers(cfg, w, script)[j])
    ensures Above(Answers(cfg, w, script)[j], e, w.counters[e])
    decreases script
  {
    hide RtCall;
    hide IdOf;
    hide RecId;
    var ev := script[0];
    var s := Take(cfg, w, ev);
    var all, tail := Answers(cfg, w, script), Answers(cfg, s.w, script[1..]);
    if ev.Invoke? {
      CallLogs(cfg, w, ev.tool, ev.args);
      CallCountsUp(cfg, w, ev.tool, ev.args, e);
    }
    if all == tail {
      LaterCreateIsLarger(cfg, s.w, script[1..], syms, j, e);
      AboveLess(tail[j], e, s.w.counters[e], w.counters[e]);
    } else {
      assert all == [Answer(ev.tool, s.r)] + tail;
      if j == 0 {
        CreateCall(cfg, w, ev.tool, ev.args);
        var e1 := cfg.tools[ev.tool].impl.entity;
        assert RecId(s.r.value) == IdOf(e1, s.w.counters[e1]);
      } else {
        LaterCreateIsLarger(cfg, s.w, script[1..], syms, j - 1, e);
        AboveLess(tail[j - 1], e, s.w.counters[e], w.counters[e]);
      }
    }
  }

  lemma AboveLess(a: Answer, e: string, n: nat, m: nat)
    requires Above(a, e, n) && m <= n
    ensures Above(a, e, m)
  {
  }

  lemma FirstApart(cfg: Config, w: World, ev: Event, rest: seq<Event>, syms: set<string>, j: nat)
    requires ScriptWithin([ev] + rest, syms) && SafeCreates(cfg, syms) && ev.Invoke?
    requires var s := Take(cfg, w, ev); IssuesId(cfg, Answer(ev.tool, s.r)) && j < |Answers(cfg, s.w, rest)| &&
                                        IssuesId(cfg, Answers(cfg, s.w, rest)[j])
    ensures var s := Take(cfg, w, ev); RecId(s.r.value) != RecId(Answers(cfg, s.w, rest)[j].r.value)
  {
    hide RtCall;
    hide IdOf;
    hide RecId;
    hide Answers;
    var s := Take(cfg, w, ev);
    assert ([ev] + rest)[0] == ev && ([ev] + rest)[1..] == rest;
    CreateCall(cfg, w, ev.tool, ev.args);
    var e := cfg.tools[ev.tool].impl.entity;
    LaterCreateIsLarger(cfg, s.w, rest, syms, j, e);
    var e1, k: nat :| RecId(Answers(cfg, s.w, rest)[j].r.value) == IdOf(e1, k) && (e1 == e ==> k > s.w.counters[e]);
    IdsApart(e, s.w.counters[e], e1, k);
  }

  /** No two creates of a script ever hand out the same id, whatever their entities, deletions in between or not. */
  lemma {:induction false} NoIdIssuedTwice(cfg: Config, w: World, script: seq<Event>, syms: set<string>, i: nat, j: nat)
    requires ScriptWithin(script, syms) && SafeCreates(cfg, syms) && i < j < |Answers(cfg, w, script)|
    requires IssuesId(cfg, Answers(cfg, w, script)[i]) && IssuesId(cfg, Answers(cfg, w, script)[j])
    ensures RecId(Answers(cfg, w, script)[i].r.value) != RecId(Answers(cfg, w, script)[j].r.value)
    decreases script
  {
    hide RtCall;
    hide IdOf;
    hide RecId;
    var ev := script[0];
    var s := Take(cfg, w, ev);
    var all, tail := Answers(cfg, w, script), Answers(cfg, s.w, script[1..]);
    if all == tail {
      NoIdIssuedTwice(cfg, s.w, script[1..], syms, i, j);
    } else {
      assert all == [Answer(ev.tool, s.r)] + tail;
      if i == 0 {
        FirstApart(cfg, w, ev, script[1..], syms, j - 1);
      } else {
        NoIdIssuedTwice(cfg, s.w, script[1..], syms, i - 1, j - 1);
      }
    }
  }

  /** A script is the run's: it ends in the run's world and calls tools of the run's text only. */
  ghost predicate ScriptOf(cfg: Config, body: seq<Stmt>, init: set<nat>, w: World, script: seq<Event>) {
    ScriptWithin(script, Symbols(body)) && Play(cfg, w, script) == RunBody(cfg, body, init, w).st.w
  }

  /** Over a whole run: some script is the run's, and in every such script the answers are those of the calls the run
      logged, one each, and no two of them carry the same new id. */
  lemma RunIssuesEachIdOnce(cfg: Config, body: seq<Stmt>, init: set<nat>, w: World)
    requires SafeCreates(cfg, Symbols(body))
    ensures exists script :: ScriptOf(cfg, body, init, w, script)
    ensures forall script | ScriptOf(cfg, body, init, w, script) ::
              var answers := Answers(cfg, w, script);
              && Answered(answers, w.calls, RunBody(cfg, body, init, w).st.w.calls)
              && forall i, j | 0 <= i < j < |answers| && IssuesId(cfg, answers[i]) && IssuesId(cfg, answers[j]) ::
                   RecId(answers[i].r.value) != RecId(answers[j].r.value)
  {
    hide RunBody;
    hide Symbols;
    hide Play;
    hide RecId;
    hide Answered;
    RunIsScript(cfg, body, init, w);
    var some :| ScriptWithin(some, Symbols(body)) && Play(cfg, w, some) == RunBody(cfg, body, init, w).st.w;
    assert ScriptOf(cfg, body, init, w, some);
    forall script | ScriptOf(cfg, body, init, w, script)
      ensures var answers := Answers(cfg, w, script);
              && Answered(answers, w.calls, RunBody(cfg, body, init, w).st.w.calls)
              && forall i, j | 0 <= i < j < |answers| && IssuesId(cfg, answers[i]) && IssuesId(cfg, answers[j]) ::
                   RecId(answers[i].r.value) != RecId(answers[j].r.value)
    {
      PlayLogs(cfg, w, script);
      forall i, j | 0 <= i < j < |Answers(cfg, w, script)| && IssuesId(cfg, Answers(cfg, w, script)[i]) &&
          IssuesId(cfg, Answers(cfg, w, script)[j])
        ensures RecId(Answers(cfg, w, script)[i].r.value) != RecId(Answers(cfg, w, script)[j].r.value)
      {
        NoIdIssuedTwice(cfg, w, script, Symbols(body), i, j);
      }
    }
  }
}
