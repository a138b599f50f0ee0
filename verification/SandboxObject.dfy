/** The sandbox as a mutable object (runtime/sandbox.js). */
module SandboxObject {
  import opened Common
  import opened Ir
  import opened Runtime
  import opened Gate
  import EL = EngineLaws

  class Sandbox {
    const cfg: Config
    var state: Store
    var calls: seq<CallEntry>
    var ops: nat
    var line: nat
    var idCounters: map<string, nat>
    var injections: seq<Injection>

    /** The object's mutable state as a value. */
    ghost function W(): World
      reads this
    {
      World(state, calls, ops, line, idCounters, injections)
    }

    constructor (cfg: Config, state: Store, injections: seq<Injection>)
      ensures this.cfg == cfg && W() == World(state, [], 0, 0, map[], injections)
    {
      this.cfg := cfg;
      this.state := state;
      this.calls := [];
      this.ops := 0;
      this.line := 0;
      this.idCounters := map[];
      this.injections := injections;
    }

    /** `rt.at`. */
    method At(n: nat)
      modifies this`line
      ensures W() == MarkLine(old(W()), n)
    {
      line := n;
    }

    /** `budget`: charges one operation, and says whether the budget is exceeded. */
    method Budget() returns (over: bool)
      modifies this`ops
      ensures W() == Tick(old(W())) && over == OverBudget(cfg, old(W()))
    {
      ops := ops + 1;
      over := ops > cfg.maxOps;
    }

    /** `nextId`: the first use of an entity scans its live rows for the largest numeric suffix. */
    method NextId(entity: string) returns (id: Value)
      modifies this`idCounters
      ensures var n := Counter(old(W()).store, old(W()).counters, entity) + 1;
              id == IdOf(entity, n) && W() == old(W()).(counters := old(W()).counters[entity := n])
    {
      var n: nat;
      if entity in idCounters {
        n := idCounters[entity];
      } else {
        var rows := Rows(state, entity);
        n := 0;
        for i := 0 to |rows|
          invariant n == MaxSuffix(rows[..i])
        {
          assert rows[..i + 1][..i] == rows[..i];
          match IdSuffix(RecId(rows[i])) {
            case Some(k) => n := if k > n then k else n;
            case None =>
          }
        }
        assert rows[..|rows|] == rows;
      }
      idCounters := idCounters[entity := n + 1];
      id := IdOf(entity, n + 1);
    }

    /** `checkInjection`: counts down the first live matching injection and returns its code, or "". */
    method CheckInjection(sym: string, name: string) returns (code: string)
      modifies this`injections
      ensures (injections, code) == Inject(old(injections), sym, name)
    {
      var i := 0;
      while i < |injections|
        invariant i <= |injections| && injections == old(injections)
        invariant forall j | 0 <= j < i :: !Fires(injections[j], sym, name)
      {
        var inj := injections[i];
        if Fires(inj, sym, name) {
          code := inj.code;
          EL.FirstFires(injections, sym, name, i);
          if inj.times > 0 {
            injections := injections[i := inj.(times := inj.times - 1)];
          } else {
            assert injections[i := inj] == injections;
          }
          return;
        }
        i := i + 1;
      }
      EL.NoneFires(injections, sym, name);
      code := "";
    }

    method Create(impl: Impl, params: seq<Value>) returns (r: Result)
      requires impl.Create?
      modifies this`state, this`idCounters
      ensures var o := RunImpl(cfg, impl, old(W()).store, old(W()).counters, params);
              r == o.r && W() == old(W()).(store := o.store, counters := o.counters)
    {
      var id := NextId(impl.entity);
      var rec := map["id" := id];
      for i := 0 to |impl.defaults|
        invariant Applied(rec, impl.defaults[i..], cfg.now) == Applied(map["id" := id], impl.defaults, cfg.now)
      {
        var (k, d) := impl.defaults[i];
        assert impl.defaults[i..][0] == (k, d) && impl.defaults[i..][1..] == impl.defaults[i + 1..];
        rec := rec[k := match d case Fixed(v) => v case NowDefault => Num(cfg.now)];
      }
      ghost var rec0 := rec;
      for i := 0 to |impl.paramFields|
        invariant WithParams(rec, impl.paramFields, params, i) == WithParams(rec0, impl.paramFields, params, 0)
      {
        var v := ParamAt(params, i);
        if impl.paramFields[i].Some? && impl.paramFields[i].value != "" && !Absent(v) {
          rec := rec[impl.paramFields[i].value := v];
        }
      }
      state := SetRows(state, impl.entity, Rows(state, impl.entity) + [Rec(rec)]);
      r := Ok(Rec(rec));
    }

    method Update(impl: Impl, params: seq<Value>) returns (r: Result)
      requires impl.Update?
      modifies this`state
      ensures var o := RunImpl(cfg, impl, old(W()).store, old(W()).counters, params);
              r == o.r && W() == old(W()).(store := o.store, counters := o.counters)
    {
      var rows := Rows(state, impl.entity);
      var at := FindIndex(rows, ParamAt(params, impl.idParam));
      if at == |rows| { return NotFound(); }
      var rec := RecFields(rows[at]);
      ghost var rec0 := rec;
      for i := 0 to |impl.setConst|
        invariant WithConsts(rec, impl.setConst[i..]) == WithConsts(rec0, impl.setConst)
      {
        assert impl.setConst[i..][1..] == impl.setConst[i + 1..];
        rec := rec[impl.setConst[i].0 := impl.setConst[i].1];
      }
      ghost var rec1 := rec;
      for i := 0 to |impl.setFromParams|
        invariant WithSetParams(rec, impl.setFromParams[i..], params) == WithSetParams(rec1, impl.setFromParams, params)
      {
        assert impl.setFromParams[i..][1..] == impl.setFromParams[i + 1..];
        var v := ParamAt(params, impl.setFromParams[i].1);
        if !Absent(v) { rec := rec[impl.setFromParams[i].0 := v]; }
      }
      state := SetRows(state, impl.entity, rows[at := Rec(rec)]);
      r := Ok(Rec(rec));
    }

    method Entry(keys: seq<string>, params: seq<Value>, rec0: map<string, Value>) returns (v: Value)
      ensures v == Rec(Mapped(keys, params, 0, rec0))
    {
      var rec := rec0;
      for i := 0 to |keys|
        invariant Mapped(keys, params, i, rec) == Mapped(keys, params, 0, rec0)
      {
        rec := rec[keys[i] := ParamAt(params, i)];
      }
      v := Rec(rec);
    }

    method RunTool(impl: Impl, params: seq<Value>) returns (r: Result)
      modifies this`state, this`idCounters
      ensures var o := RunImpl(cfg, impl, old(W()).store, old(W()).counters, params);
              r == o.r && W() == old(W()).(store := o.store, counters := o.counters)
      ensures EL.Does(cfg, impl, params, old(W()).store, old(W()).counters, ImplOut(state, idCounters, r))
    {
      EL.EngineDoes(cfg, impl, params, state, idCounters);
      hide EL.Does;
      match impl
      case ListAll(e) => r := Ok(List(Rows(state, e)));
      case ListBy(e, f, ip) => r := Ok(List(KeepWhere(Rows(state, e), f, ParamAt(params, ip))));
      case GetOne(e, ip) =>
        var rows := Rows(state, e);
        var i := FindIndex(rows, ParamAt(params, ip));
        r := if i == |rows| then NotFound() else Ok(rows[i]);
      case Create(_, _, _) => r := Create(impl, params);
      case Update(_, _, _, _) => r := Update(impl, params);
      case Delete(e, ip) =>
        var rows := Rows(state, e);
        var i := FindIndex(rows, ParamAt(params, ip));
        if i == |rows| { return NotFound(); }
        state := SetRows(state, e, rows[..i] + rows[i + 1..]);
        r := Ok(Nil);
      case Send(channel, keys) =>
        var entry := Entry(keys, params, map["channel" := Str(channel)]);
        state := state.(outbox := state.outbox + [entry]);
        r := Ok(Nil);
      case Pay(keys) =>
        var entry := Entry(keys, params, map[]);
        state := state.(payments := state.payments + [entry]);
        r := Ok(Nil);
      case NoopEmpty(kind) =>
        r := if kind == "LIST" then Ok(List([])) else if kind == "STR" then Ok(Str("")) else NotFound();
      case NoopRecord(e, ip) =>
        var rows := Rows(state, e);
        var i := FindIndex(rows, ParamAt(params, ip));
        r := if i == |rows| then NotFound() else Ok(rows[i]);
      case Noop => r := Ok(Nil);
      case Foreign(name) =>
        var (store', r') := cfg.foreign(name, state, params);
        state := store';
        r := r';
    }

    /** The parameter loop of `rt.call`. */
    method Narrow(tool: Tool, args: seq<Value>) returns (r: Res<seq<Value>, Exn>)
      ensures r == Narrowed(tool.params, args, 0)
    {
      var params: seq<Value> := [];
      assert forall vs: seq<Value> :: params + vs == vs;
      for i := 0 to |tool.params|
        invariant |params| == i
        invariant Narrowed(tool.params, args, 0) ==
                  match Narrowed(tool.params, args, i) case Err(e) => Err(e) case Ok(vs) => Ok(params + vs)
      {
        var v := ParamAt(args, i);
        if v.Undef? && tool.params[i].required { return Err(ToolErr("INVALID_ARGUMENT")); }
        if v.Undef? { v := Nil; }
        if tool.params[i].isId { v := NarrowId(v); }
        ghost var before := params;
        params := params + [v];
        assert forall vs: seq<Value> :: before + ([v] + vs) == params + vs;
      }
      r := Ok(params);
      assert params + [] == params;
    }

    /** `rt.call`: the entry is logged before injection and dispatch, and marked failed afterwards if they raise. */
    method Call(sym: string, args: seq<Value>) returns (r: Result)
      modifies this
      ensures r == RtCall(cfg, old(W()), sym, args).r && W() == RtCall(cfg, old(W()), sym, args).w
      ensures EL.Calls(cfg, old(W()), sym, args, W(), r)
    {
      EL.CallDoes(cfg, W(), sym, args);
      hide EL.Calls;
      hide EL.Does;
      var over := Budget();
      if over { return Err(ToolErr("RATE_LIMITED")); }
      if sym !in cfg.tools { return NotFound(); }
      var tool := cfg.tools[sym];
      var narrowed := Narrow(tool, args);
      if narrowed.Err? { return Err(narrowed.error); }
      var params := narrowed.value;
      if Irreversible in tool.effects && !cfg.approval && !cfg.preview { return Err(Blocked(sym, params)); }
      var n := |calls|;
      calls := calls + [CallEntry(sym, tool.name, params, true, "")];
      var code := CheckInjection(sym, tool.name);
      if code != "" {
        r := Err(ToolErr(code));
      } else {
        r := RunTool(tool.impl, params);
      }
      if r.Err? {
        calls := calls[n := CallEntry(sym, tool.name, params, false, ErrorText(r.error))];
      }
    }

    /** `consequences`. */
    method ListChanges() returns (out: seq<Change>)
      ensures out == Consequences(cfg, calls)
    {
      out := [];
      for i := 0 to |calls|
        invariant out == Consequences(cfg, calls[..i])
      {
        assert calls[..i + 1][..i] == calls[..i];
        var e := ChangeOf(cfg, calls[i]);
        if e.Some? { out := out + [Change(calls[i].tool, calls[i].name, calls[i].args, e.value)]; }
      }
      assert calls[..|calls|] == calls;
    }

    /** `gate`: DESTRUCTIVE exactly when a successful irreversible call is logged, else BULK_WRITE exactly when the
        changes exceed the limit. */
    method GateCode() returns (code: Option<string>)
      ensures code == Verdict(cfg, Consequences(cfg, calls))
      ensures code == Some("DESTRUCTIVE") <==> Destroys(cfg, calls)
      ensures code == Some("BULK_WRITE") <==>
              !Destroys(cfg, calls) && cfg.bulkLimit.Some? && |Consequences(cfg, calls)| > cfg.bulkLimit.value
    {
      var changes := ListChanges();
      VerdictExact(cfg, calls);
      for i := 0 to |changes|
        invariant forall j | 0 <= j < i :: changes[j].effect == Mutates
      {
        if changes[i].effect != Mutates { return Some("DESTRUCTIVE"); }
      }
      if cfg.bulkLimit.Some? && |changes| > cfg.bulkLimit.value { return Some("BULK_WRITE"); }
      code := None;
    }
  }
}
