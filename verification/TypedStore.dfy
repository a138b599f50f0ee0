/** The tool engine keeps a typed store typed. */
module TypedStore {
  import opened Common
  import opened Ir
  import opened Runtime
  import opened Semantics
  import opened Effects
  import opened Check
  import opened Typing

  // ---------------------------------------------------------------- descriptors that agree with their declarations

  /** Types whose acceptable arguments are of the type itself: not a list of ids, for which the checker lets a list of
      records through, and not NULL, for which it lets everything through. */
  predicate SteadyType(t: Type) {
    match t
    case TId(_) => false
    case TNull => false
    case TList(u) => SteadyType(u)
    case _ => true
  }

  /** Parameter types whose value at the tool is of the type: an ID slot narrows a record to its id. */
  predicate PlainType(t: Type) {
    SteadyType(t) || t.TId?
  }

  /** A non-null value of type `from` is of type `to`. */
  predicate Flows(from: Type, to: Type) {
    from == to || (IsNumeric(from) && IsNumeric(to)) || (from.TId? && to.TId?)
  }

  /** Every field of entity `e` spelled `name`, if declared, takes `v`. */
  ghost predicate FieldTakes(ctx: TaskContext, e: string, name: string, v: Value) {
    forall sym | sym in ctx.fields && ctx.fields[sym].entity == Some(e) && ctx.fields[sym].name == name ::
        Fits(ctx, v, ctx.fields[sym].ty)
  }

  predicate FieldTypeTakes(ctx: TaskContext, e: string, name: string, t: Type) {
    forall sym | sym in ctx.fields && ctx.fields[sym].entity == Some(e) && ctx.fields[sym].name == name ::
        Flows(t, ctx.fields[sym].ty)
  }

  /** Parameter `i` may be stored in field `name` of `e`. A missing parameter is never stored. */
  predicate ParamInto(ctx: TaskContext, e: string, name: string, params: seq<Param>, i: nat) {
    name != "id" && (i < |params| ==> PlainType(params[i].ty) && FieldTypeTakes(ctx, e, name, params[i].ty))
  }

  /** What an argument has become when the tool sees it: ids in ID slots, anything acceptable elsewhere. */
  ghost predicate SlotFits(ctx: TaskContext, v: Value, t: Type) {
    if t.TId? then Fits(ctx, v, t) else ArgFits(ctx, v, t)
  }

  /** The parameters the engine sees. */
  ghost predicate ParamsFit(ctx: TaskContext, params: seq<Value>, decl: seq<Param>, from: nat)
    requires from <= |decl|
  {
    |params| == |decl| - from && forall i | 0 <= i < |params| :: SlotFits(ctx, params[i], decl[from + i].ty)
  }

  /** A foreign tool keeps a typed store typed and returns a value of its declared type. */
  ghost predicate ForeignTyped(cfg: Config, ctx: TaskContext, name: string, decl: seq<Param>, result: Type) {
    forall store, params | StoreFits(ctx, store) && ParamsFit(ctx, params, decl, 0) ::
      var (store', r) := cfg.foreign(name, store, params);
          StoreFits(ctx, store') && (r.Ok? ==> Fits(ctx, r.value, result))
  }

  ghost predicate ImplTyped(cfg: Config, ctx: TaskContext, impl: Impl, params: seq<Param>, result: Type) {
    match impl
    case ListAll(e) => e != "" && result == TList(TObj(e))
    case ListBy(e, _, _) => e != "" && result == TList(TObj(e))
    case GetOne(e, _) => e != "" && result == TObj(e)
    case NoopRecord(e, _) => e != "" && result == TObj(e)
    case Create(e, defaults, names) =>
      && e != "" && result == TObj(e)
      && (forall i | 0 <= i < |defaults| ::
          defaults[i].0 != "id" && FieldTakes(ctx, e, defaults[i].0, DefaultValue(defaults[i].1, cfg.now)))
      && (forall i | 0 <= i < |names| && names[i].Some? :: ParamInto(ctx, e, names[i].value, params, i))
    case Update(e, _, consts, sets) =>
      && e != "" && result == TObj(e)
      && (forall i | 0 <= i < |consts| :: consts[i].0 != "id" && FieldTakes(ctx, e, consts[i].0, consts[i].1))
      && (forall i | 0 <= i < |sets| :: ParamInto(ctx, e, sets[i].0, params, sets[i].1))
    case NoopEmpty(kind) => (kind == "LIST" ==> result.TList?) && (kind == "STR" ==> result.TStr?)
    case Foreign(name) => ForeignTyped(cfg, ctx, name, params, result)
    case _ => true
  }

  function DefaultValue(d: Default, now: int): Value {
    match d case Fixed(v) => v case NowDefault => Num(now)
  }

  /** The sandbox's descriptor and the context's declaration of one tool agree. */
  ghost predicate ToolTyped(cfg: Config, ctx: TaskContext, sym: string)
    requires sym in cfg.tools && sym in ctx.tools
  {
    var tool, decl := cfg.tools[sym], ctx.tools[sym];
    && |tool.params| == |decl.params|
    && (forall i | 0 <= i < |decl.params| :: tool.params[i].isId <==> decl.params[i].ty.TId?)
    && ImplTyped(cfg, ctx, tool.impl, decl.params, ResultType(ctx, sym))
  }

  /** The tools of `syms` agree with their declarations. */
  ghost predicate EngineTyped(cfg: Config, ctx: TaskContext, syms: set<string>) {
    IdFieldsOk(ctx) && forall sym | sym in syms && sym in cfg.tools && sym in ctx.tools :: ToolTyped(cfg, ctx, sym)
  }

  // ---------------------------------------------------------------- the invariant

  /** Every row of every entity is a record of that entity. */
  ghost predicate StoreFits(ctx: TaskContext, store: Store) {
    forall e: Entity | e in store.entities :: Table(ctx, store.entities[e], e)
  }

  ghost predicate Table(ctx: TaskContext, rows: seq<Value>, e: Entity) {
    forall i | 0 <= i < |rows| :: rows[i].Rec? && Fits(ctx, rows[i], TObj(e))
  }

  ghost function StoreInv(ctx: TaskContext): WorldInv {
    (w: World) => StoreFits(ctx, w.store)
  }

  lemma RowsFit(ctx: TaskContext, store: Store, e: Entity)
    requires StoreFits(ctx, store)
    ensures Table(ctx, Rows(store, e), e)
  {
  }

  lemma RowsSet(ctx: TaskContext, store: Store, e: Entity, rows: seq<Value>)
    requires StoreFits(ctx, store) && Table(ctx, rows, e)
    ensures StoreFits(ctx, SetRows(store, e, rows))
  {
    hide Fits;
  }

  // ---------------------------------------------------------------- arguments

  /** An argument the checker lets through, narrowed as the slot narrows it, is what the slot takes. */
  lemma NarrowedFits(ctx: TaskContext, v: Value, t: Type)
    requires ArgFits(ctx, v, t)
    ensures SlotFits(ctx, if t.TId? then NarrowId(v) else v, t)
  {
    if t.TId? {
      var got :| Compatible(t, got) && Fits(ctx, v, got);
    }
  }

  lemma AbsentSlot(ctx: TaskContext, v: Value, t: Type)
    requires Absent(v)
    ensures SlotFits(ctx, v, t)
  {
    AbsentFits(ctx, v, t);
    AbsentFits(ctx, v, TNull);
    assert Compatible(t, TNull);
  }

  lemma {:induction false} SteadyFits(ctx: TaskContext, v: Value, t: Type, got: Type)
    requires SteadyType(t) && Compatible(t, got) && Fits(ctx, v, got)
    ensures Fits(ctx, v, t)
    decreases t
  {
    if t.TList? && got.TList? && v.List? {
      forall i | 0 <= i < |v.elems|
        ensures Fits(ctx, v.elems[i], t.elem)
      {
        SteadyFits(ctx, v.elems[i], t.elem, got.elem);
      }
    }
  }

  /** A parameter of a plain type is null or of that type. */
  lemma PlainSlot(ctx: TaskContext, v: Value, t: Type)
    requires PlainType(t) && SlotFits(ctx, v, t)
    ensures Fits(ctx, v, t)
  {
    hide Fits;
    hide Compatible;
    if !t.TId? {
      var got :| Compatible(t, got) && Fits(ctx, v, got);
      SteadyFits(ctx, v, t, got);
    }
  }

  lemma FlowsFits(ctx: TaskContext, v: Value, from: Type, to: Type)
    requires Flows(from, to) && Fits(ctx, v, from)
    ensures Fits(ctx, v, to)
  {
  }

  lemma {:induction false} NarrowedParams(ctx: TaskContext, tool: seq<ToolParam>, decl: seq<Param>, args: seq<Value>,
                                          i: nat)
    requires |tool| == |decl| && i <= |decl|
    requires forall k | 0 <= k < |decl| :: tool[k].isId <==> decl[k].ty.TId?
    requires forall k | 0 <= k < |args| && k < |decl| :: ArgFits(ctx, args[k], decl[k].ty)
    ensures var r := Narrowed(tool, args, i); r.Ok? ==> ParamsFit(ctx, r.value, decl, i)
    decreases |decl| - i
  {
    hide SlotFits;
    hide ArgFits;
    hide NarrowId;
    if i < |decl| {
      NarrowedParams(ctx, tool, decl, args, i + 1);
      var v := ParamAt(args, i);
      AbsentSlot(ctx, Nil, decl[i].ty);
      if i < |args| { NarrowedFits(ctx, args[i], decl[i].ty); }
      var rest := Narrowed(tool, args, i + 1);
      var v1 := if v.Undef? then Nil else v;
      var v2 := if tool[i].isId then NarrowId(v1) else v1;
      assert SlotFits(ctx, v2, decl[i].ty) by { NilStays(); }
      if rest.Ok? {
        var out := [v2] + rest.value;
        assert forall k | 0 < k < |out| :: out[k] == rest.value[k - 1];
        forall k | 0 <= k < |out|
          ensures SlotFits(ctx, out[k], decl[i + k].ty)
        {
          if k > 0 { assert SlotFits(ctx, rest.value[k - 1], decl[i + 1 + (k - 1)].ty); }
        }
      }
    }
  }

  lemma NilStays()
    ensures NarrowId(Nil) == Nil
  {
  }

  // ---------------------------------------------------------------- records

  /** Each declared field of `e` the record carries fits. */
  ghost predicate FieldsFit(ctx: TaskContext, e: string, rec: map<string, Value>) {
    forall sym | sym in ctx.fields && ctx.fields[sym].entity == Some(e) && ctx.fields[sym].name in rec ::
      Fits(ctx, rec[ctx.fields[sym].name], ctx.fields[sym].ty)
  }

  /** The record is one of entity `e`: an id, and fitting fields. */
  ghost predicate RecOk(ctx: TaskContext, e: string, rec: map<string, Value>) {
    "id" in rec && IsId(rec["id"]) && FieldsFit(ctx, e, rec)
  }

  lemma RecFits(ctx: TaskContext, e: Entity, rec: map<string, Value>)
    ensures Fits(ctx, Rec(rec), TObj(e)) <==> RecOk(ctx, e, rec)
  {
  }

  lemma SetFits(ctx: TaskContext, e: string, rec: map<string, Value>, name: string, v: Value)
    requires RecOk(ctx, e, rec) && name != "id" && FieldTakes(ctx, e, name, v)
    ensures RecOk(ctx, e, rec[name := v])
  {
    hide Fits;
  }

  lemma ParamTaken(ctx: TaskContext, e: string, name: string, decl: seq<Param>, params: seq<Value>, i: nat)
    requires ParamsFit(ctx, params, decl, 0) && ParamInto(ctx, e, name, decl, i) && !Absent(ParamAt(params, i))
    ensures FieldTakes(ctx, e, name, ParamAt(params, i))
  {
    hide Fits;
    hide Flows;
    assert i < |params|;
    assert SlotFits(ctx, params[i], decl[0 + i].ty);
    hide SlotFits;
    PlainSlot(ctx, params[i], decl[i].ty);
    forall sym | sym in ctx.fields && ctx.fields[sym].entity == Some(e) && ctx.fields[sym].name == name
      ensures Fits(ctx, params[i], ctx.fields[sym].ty)
    {
      FlowsFits(ctx, params[i], decl[0 + i].ty, ctx.fields[sym].ty);
    }
  }

  lemma {:induction false} AppliedOk(ctx: TaskContext, e: string, rec: map<string, Value>,
                                     defaults: seq<(string, Default)>, now: int)
    requires RecOk(ctx, e, rec)
    requires forall i | 0 <= i < |defaults| ::
             defaults[i].0 != "id" && FieldTakes(ctx, e, defaults[i].0, DefaultValue(defaults[i].1, now))
    ensures RecOk(ctx, e, Applied(rec, defaults, now))
    decreases defaults
  {
    hide RecOk;
    hide FieldTakes;
    if defaults != [] {
      var v := DefaultValue(defaults[0].1, now);
      SetFits(ctx, e, rec, defaults[0].0, v);
      AppliedOk(ctx, e, rec[defaults[0].0 := v], defaults[1..], now);
    }
  }

  lemma {:induction false} WithParamsOk(ctx: TaskContext, e: string, rec: map<string, Value>,
                                        names: seq<Option<string>>, decl: seq<Param>, params: seq<Value>, i: nat)
    requires i <= |names| && RecOk(ctx, e, rec) && ParamsFit(ctx, params, decl, 0)
    requires forall k | 0 <= k < |names| && names[k].Some? :: ParamInto(ctx, e, names[k].value, decl, k)
    ensures RecOk(ctx, e, WithParams(rec, names, params, i))
    decreases |names| - i
  {
    hide RecOk;
    hide ParamsFit;
    hide FieldTakes;
    hide FieldTypeTakes;
    if i < |names| {
      var v := ParamAt(params, i);
      if names[i].None? || names[i].value == "" || Absent(v) {
        WithParamsOk(ctx, e, rec, names, decl, params, i + 1);
      } else {
        ParamTaken(ctx, e, names[i].value, decl, params, i);
        SetFits(ctx, e, rec, names[i].value, v);
        WithParamsOk(ctx, e, rec[names[i].value := v], names, decl, params, i + 1);
      }
    }
  }

  lemma {:induction false} WithConstsOk(ctx: TaskContext, e: string, rec: map<string, Value>,
                                        consts: seq<(string, Value)>)
    requires RecOk(ctx, e, rec) && forall i | 0 <= i < |consts| ::
             consts[i].0 != "id" && FieldTakes(ctx, e, consts[i].0, consts[i].1)
    ensures RecOk(ctx, e, WithConsts(rec, consts))
    decreases consts
  {
    hide RecOk;
    hide FieldTakes;
    if consts != [] {
      SetFits(ctx, e, rec, consts[0].0, consts[0].1);
      WithConstsOk(ctx, e, rec[consts[0].0 := consts[0].1], consts[1..]);
    }
  }

  lemma {:induction false} WithSetParamsOk(ctx: TaskContext, e: string, rec: map<string, Value>,
                                           sets: seq<(string, nat)>, decl: seq<Param>, params: seq<Value>)
    requires RecOk(ctx, e, rec) && ParamsFit(ctx, params, decl, 0)
    requires forall i | 0 <= i < |sets| :: ParamInto(ctx, e, sets[i].0, decl, sets[i].1)
    ensures RecOk(ctx, e, WithSetParams(rec, sets, params))
    decreases sets
  {
    hide RecOk;
    hide ParamsFit;
    hide FieldTakes;
    hide FieldTypeTakes;
    if sets != [] {
      var v := ParamAt(params, sets[0].1);
      if Absent(v) {
        WithSetParamsOk(ctx, e, rec, sets[1..], decl, params);
      } else {
        ParamTaken(ctx, e, sets[0].0, decl, params, sets[0].1);
        SetFits(ctx, e, rec, sets[0].0, v);
        WithSetParamsOk(ctx, e, rec[sets[0].0 := v], sets[1..], decl, params);
      }
    }
  }

  // ---------------------------------------------------------------- the engine

  ghost predicate OutFits(ctx: TaskContext, o: ImplOut, result: Type) {
    StoreFits(ctx, o.store) && (o.r.Ok? ==> Fits(ctx, o.r.value, result))
  }

  lemma CreateFits(cfg: Config, ctx: TaskContext, impl: Impl, store: Store, counters: map<string, nat>,
                   decl: seq<Param>, params: seq<Value>)
    requires impl.Create? && impl.entity != "" && IdFieldsOk(ctx) && StoreFits(ctx, store) &&
             ParamsFit(ctx, params, decl, 0)
    requires ImplTyped(cfg, ctx, impl, decl, TObj(impl.entity))
    ensures OutFits(ctx, RunImpl(cfg, impl, store, counters, params), TObj(impl.entity))
  {
    hide StoreFits;
    hide FieldTakes;
    hide Counter;
    hide ParamsFit;
    hide Applied;
    hide WithParams;
    hide FieldTypeTakes;
    var e: Entity := impl.entity;
    var n := Counter(store, counters, e) + 1;
    var base := map["id" := IdOf(e, n)];
    assert RecOk(ctx, e, base);
    hide RecOk;
    AppliedOk(ctx, e, base, impl.defaults, cfg.now);
    WithParamsOk(ctx, e, Applied(base, impl.defaults, cfg.now), impl.paramFields, decl, params, 0);
    var rec := Created(cfg, impl, n, params);
    RecFits(ctx, e, rec.fields);
    RowsFit(ctx, store, e);
    hide Fits;
    RowsSet(ctx, store, e, Rows(store, e) + [rec]);
  }

  lemma UpdateFits(cfg: Config, ctx: TaskContext, impl: Impl, store: Store, counters: map<string, nat>,
                   decl: seq<Param>, params: seq<Value>)
    requires impl.Update? && impl.entity != "" && StoreFits(ctx, store) && ParamsFit(ctx, params, decl, 0)
    requires ImplTyped(cfg, ctx, impl, decl, TObj(impl.entity))
    ensures OutFits(ctx, RunImpl(cfg, impl, store, counters, params), TObj(impl.entity))
  {
    hide StoreFits;
    hide FieldTakes;
    hide ParamsFit;
    hide WithConsts;
    hide WithSetParams;
    hide FieldTypeTakes;
    hide FindIndex;
    var e: Entity := impl.entity;
    var rows := Rows(store, e);
    var i := FindIndex(rows, ParamAt(params, impl.idParam));
    RowsFit(ctx, store, e);
    if i < |rows| {
      RecFits(ctx, e, rows[i].fields);
      hide RecOk;
      WithConstsOk(ctx, e, rows[i].fields, impl.setConst);
      WithSetParamsOk(ctx, e, WithConsts(rows[i].fields, impl.setConst), impl.setFromParams, decl, params);
      var rec := Updated(impl, rows[i], params);
      RecFits(ctx, e, rec.fields);
      hide Fits;
      RowsSet(ctx, store, e, rows[i := rec]);
    }
  }

  lemma {:induction false} KeptTable(ctx: TaskContext, rows: seq<Value>, e: Entity, field: string, key: Value)
    requires Table(ctx, rows, e)
    ensures Table(ctx, KeepWhere(rows, field, key), e)
    decreases rows
  {
    hide Fits;
    if rows != [] { KeptTable(ctx, rows[1..], e, field, key); }
  }

  lemma TableFits(ctx: TaskContext, rows: seq<Value>, e: Entity)
    requires Table(ctx, rows, e)
    ensures Fits(ctx, List(rows), TList(TObj(e)))
  {
  }

  /** A read, a delete or a message: no row changes its shape. */
  lemma DeleteFits(cfg: Config, ctx: TaskContext, impl: Impl, store: Store, counters: map<string, nat>,
                   params: seq<Value>)
    requires impl.Delete? && impl.entity != "" && StoreFits(ctx, store)
    ensures OutFits(ctx, RunImpl(cfg, impl, store, counters, params), TNull)
  {
    hide StoreFits;
    hide FindIndex;
    var Delete(e, ip) := impl;
    RowsFit(ctx, store, e);
    var rows := Rows(store, e);
    var i := FindIndex(rows, ParamAt(params, ip));
    if i < |rows| {
      assert Table(ctx, rows[..i] + rows[i + 1..], e) by { hide Fits; }
      RowsSet(ctx, store, e, rows[..i] + rows[i + 1..]);
    }
  }

  lemma PlainFits(cfg: Config, ctx: TaskContext, impl: Impl, store: Store, counters: map<string, nat>, decl: seq<Param>,
                  params: seq<Value>, result: Type)
    requires !impl.Create? && !impl.Update? && !impl.Foreign? && StoreFits(ctx, store) &&
             ImplTyped(cfg, ctx, impl, decl, result)
    ensures OutFits(ctx, RunImpl(cfg, impl, store, counters, params), result)
  {
    hide StoreFits;
    hide FindIndex;
    hide KeepWhere;
    hide Mapped;
    match impl
    case ListAll(e) =>
      RowsFit(ctx, store, e);
      TableFits(ctx, Rows(store, e), e);
    case ListBy(e, f, ip) =>
      RowsFit(ctx, store, e);
      KeptTable(ctx, Rows(store, e), e, f, ParamAt(params, ip));
      TableFits(ctx, KeepWhere(Rows(store, e), f, ParamAt(params, ip)), e);
    case GetOne(e, _) => RowsFit(ctx, store, e);
    case NoopRecord(e, _) => RowsFit(ctx, store, e);
    case Delete(e, ip) =>
      if e != "" {
        DeleteFits(cfg, ctx, impl, store, counters, params);
      } else {
        Nameless(ctx, store, Rows(store, e));
        DeleteNameless(cfg, ctx, impl, store, counters, params);
      }
    case Send(c, keys) =>
      var entry := Rec(Mapped(keys, params, 0, map["channel" := Str(c)]));
      SameEntities(ctx, store, store.(outbox := store.outbox + [entry]));
    case Pay(keys) =>
      SameEntities(ctx, store, store.(payments := store.payments + [Rec(Mapped(keys, params, 0, map[]))]));
    case NoopEmpty(_) =>
    case Noop =>
  }

  lemma SameEntities(ctx: TaskContext, a: Store, b: Store)
    requires StoreFits(ctx, a) && a.entities == b.entities
    ensures StoreFits(ctx, b)
  {
  }

  lemma Nameless(ctx: TaskContext, store: Store, rows: seq<Value>)
    requires StoreFits(ctx, store)
    ensures forall r :: StoreFits(ctx, SetRows(store, "", r))
  {
    hide Fits;
  }

  lemma DeleteNameless(cfg: Config, ctx: TaskContext, impl: Impl, store: Store, counters: map<string, nat>,
                       params: seq<Value>)
    requires impl.Delete? && impl.entity == "" && StoreFits(ctx, store) && forall r ::
             StoreFits(ctx, SetRows(store, "", r))
    ensures StoreFits(ctx, RunImpl(cfg, impl, store, counters, params).store)
  {
    hide StoreFits;
    hide FindIndex;
  }

  lemma ForeignFits(cfg: Config, ctx: TaskContext, impl: Impl, store: Store, counters: map<string, nat>,
                    decl: seq<Param>, params: seq<Value>, result: Type)
    requires impl.Foreign? && StoreFits(ctx, store) && ParamsFit(ctx, params, decl, 0) &&
             ImplTyped(cfg, ctx, impl, decl, result)
    ensures OutFits(ctx, RunImpl(cfg, impl, store, counters, params), result)
  {
    hide StoreFits;
    hide ParamsFit;
    hide Fits;
  }

  lemma ImplFits(cfg: Config, ctx: TaskContext, impl: Impl, store: Store, counters: map<string, nat>, decl: seq<Param>,
                 params: seq<Value>, result: Type)
    requires IdFieldsOk(ctx) && StoreFits(ctx, store) && ParamsFit(ctx, params, decl, 0)
    requires ImplTyped(cfg, ctx, impl, decl, result)
    ensures OutFits(ctx, RunImpl(cfg, impl, store, counters, params), result)
  {
    hide StoreFits;
    hide ParamsFit;
    hide RunImpl;
    hide FieldTakes;
    hide FieldTypeTakes;
    hide OutFits;
    if impl.Create? {
      CreateFits(cfg, ctx, impl, store, counters, decl, params);
    } else if impl.Update? {
      UpdateFits(cfg, ctx, impl, store, counters, decl, params);
    } else if impl.Foreign? {
      ForeignFits(cfg, ctx, impl, store, counters, decl, params, result);
    } else {
      PlainFits(cfg, ctx, impl, store, counters, decl, params, result);
    }
  }

  lemma CallFits(cfg: Config, ctx: TaskContext, syms: set<string>, w: World, sym: string, args: seq<Value>)
    requires EngineTyped(cfg, ctx, syms) && sym in syms && StoreFits(ctx, w.store) && ArgsFit(ctx, sym, args)
    ensures var s := RtCall(cfg, w, sym, args);
            StoreFits(ctx, s.w.store) && (s.r.Ok? ==> Fits(ctx, s.r.value, ResultType(ctx, sym)))
  {
    hide StoreFits;
    hide Fits;
    hide ArgFits;
    hide Narrowed;
    hide Inject;
    hide RunImpl;
    hide ParamsFit;
    if sym in cfg.tools {
      assert ToolTyped(cfg, ctx, sym);
      var tool, decl := cfg.tools[sym], ctx.tools[sym];
      NarrowedParams(ctx, tool.params, decl.params, args, 0);
      hide ImplTyped;
      if Narrowed(tool.params, args, 0).Ok? {
        var params := Narrowed(tool.params, args, 0).value;
        ImplFits(cfg, ctx, tool.impl, w.store, w.counters, decl.params, params, ResultType(ctx, sym));
      }
    }
  }

  /** Over a typed store, tools whose descriptors agree with their declarations meet the tool hypothesis of
      TypesPreserved. */
  lemma EngineMeetsToolsTyped(cfg: Config, ctx: TaskContext, syms: set<string>)
    requires EngineTyped(cfg, ctx, syms)
    ensures ToolsTyped(cfg, ctx, StoreInv(ctx), syms)
  {
    hide StoreFits;
    hide EngineTyped;
    hide ArgsFit;
    hide RtCall;
    hide Fits;
    forall w: World, sym, args | StoreFits(ctx, w.store) && sym in syms && ArgsFit(ctx, sym, args)
      ensures var s := RtCall(cfg, w, sym, args);
              StoreFits(ctx, s.w.store) && (s.r.Ok? ==> Fits(ctx, s.r.value, ResultType(ctx, sym)))
    {
      CallFits(cfg, ctx, syms, w, sym, args);
    }
  }

  /** End to end: a clean program without registers of two types that counts no records, run over a typed store by tools
      that agree with their declarations, ends with a typed store and every bound register null or of its checked
      type. */
  lemma CrudRunsTyped(cfg: Config, ctx: TaskContext, gamma: Env, body: seq<Stmt>, w: World)
    requires Clean(ctx, body, ctx.initial) && OneType(ctx, body, ctx.initial, gamma) && EnvIn(ctx.initial, gamma)
    requires CountsNoRecords(ctx, body)
    requires HostTyped(cfg, ctx) && EngineTyped(cfg, ctx, Symbols(body)) && StoreFits(ctx, w.store)
    requires RegsFit(ctx, gamma, InitialRegs(cfg, ctx.initial.Keys))
    ensures var o := RunBody(cfg, body, ctx.initial.Keys, w);
            StoreFits(ctx, o.st.w.store) && RegsFit(ctx, gamma, o.st.regs)
  {
    hide RunBody;
    hide StoreFits;
    hide EngineTyped;
    hide OneType;
    hide CountsNoRecords;
    hide HostTyped;
    hide ToolsTyped;
    hide RegsFit;
    hide CheckBlock;
    hide Symbols;
    EngineMeetsToolsTyped(cfg, ctx, Symbols(body));
    TypesPreserved(cfg, ctx, StoreInv(ctx), gamma, body, w);
  }
}
