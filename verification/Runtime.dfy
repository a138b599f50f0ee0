/** The tool engine and the `rt` surface handed to a compiled program (runtime/sandbox.js),
    as functions of the sandbox's mutable state. */
module Runtime {
  import opened Common
  import opened Decimal
  import opened Ir

  /** JavaScript values a program can hold. `Undef` is JavaScript's `undefined`; JSON data never contains it. */
  datatype Value =
    | Undef
    | Nil
    | Num(n: int)
    | Str(s: string)
    | Bool(b: bool)
    | Rec(fields: map<string, Value>)
    | List(elems: seq<Value>)

  datatype Exn =
    | ToolErr(code: string)
    | Blocked(tool: string, args: seq<Value>)
    | JsErr(message: string)

  type Result = Res<Value, Exn>

  // ---------------------------------------------------------------- configuration

  datatype ToolParam = ToolParam(name: string, required: bool, isId: bool)

  /** A descriptor default is a value or the marker "$now". */
  datatype Default = Fixed(v: Value) | NowDefault

  datatype Impl =
    | ListAll(entity: string)
    | ListBy(entity: string, field: string, idParam: nat)
    | GetOne(entity: string, idParam: nat)
    | Create(entity: string, defaults: seq<(string, Default)>, paramFields: seq<Option<string>>)
    | Update(entity: string, idParam: nat, setConst: seq<(string, Value)>, setFromParams: seq<(string, nat)>)
    | Delete(entity: string, idParam: nat)
    | Send(channel: string, paramMap: seq<string>)
    | Pay(paramMap: seq<string>)
    | NoopEmpty(empty: string)
    | NoopRecord(entity: string, idParam: nat)
    | Noop
    | Foreign(name: string)

  datatype Tool = Tool(name: string, params: seq<ToolParam>, effects: set<Effect>, impl: Impl)

  datatype Store = Store(entities: map<string, seq<Value>>, outbox: seq<Value>, payments: seq<Value>)

  datatype CallEntry = CallEntry(tool: string, name: string, args: seq<Value>, ok: bool, error: string)

  /** `times` counts down when positive; a negative count never runs out. */
  datatype Injection = Injection(tool: string, name: string, code: string, times: int)

  /** `String(v)` of what is no string, `JSON.stringify`, and the ISO date of a time. */
  datatype Printer = Printer(text: Value -> string, json: Value -> string, date: int -> string)

  /** One job. The last four members are foreign code, kept as arbitrary functions: the string normaliser, the printer,
      comparisons that coerce, and tools beyond the CRUD ops. */
  datatype Config = Config(
    tools: map<string, Tool>,
    fields: map<string, string>,
    constants: map<string, Value>,
    now: int,
    approval: bool,
    preview: bool,
    maxOps: nat,
    bulkLimit: Option<nat>,
    initial: map<nat, Value>,
    norm: string -> string,
    printer: Printer,
    coerceLess: (Value, Value) -> bool,
    foreign: (string, Store, seq<Value>) -> (Store, Result))

  /** Everything a run changes. `counters` is `idCounters`. */
  datatype World = World(
    store: Store,
    calls: seq<CallEntry>,
    ops: nat,
    line: nat,
    counters: map<string, nat>,
    injections: seq<Injection>)

  datatype Step = Step(w: World, r: Result)

  // ---------------------------------------------------------------- values

  predicate Absent(v: Value) {
    v.Undef? || v.Nil?
  }

  function NarrowId(v: Value): Value {
    if v.Rec? && "id" in v.fields then v.fields["id"] else v
  }

  /** The property as it stands. */
  function Raw(x: Value, name: string): Value {
    if x.Rec? && name in x.fields then x.fields[name] else Undef
  }

  /** The property, with `undefined` read as null. */
  function Prop(x: Value, name: string): Value {
    var v := Raw(x, name);
    if v.Undef? then Nil else v
  }

  /** The id of a record in a list. */
  function RecId(r: Value): Value {
    Raw(r, "id")
  }

  function Rows(store: Store, entity: string): seq<Value> {
    if entity in store.entities then store.entities[entity] else []
  }

  /** The first record with this id, |rows| when there is none. */
  function FindIndex(rows: seq<Value>, id: Value): (i: nat)
    ensures i <= |rows|
    ensures i < |rows| ==> RecId(rows[i]) == id
    ensures forall j | 0 <= j < i :: RecId(rows[j]) != id
  {
    if rows == [] || RecId(rows[0]) == id then 0 else 1 + FindIndex(rows[1..], id)
  }

  function ParamAt(params: seq<Value>, i: nat): Value {
    if i < |params| then params[i] else Undef
  }

  // ---------------------------------------------------------------- budget, ids, injections

  predicate OverBudget(cfg: Config, w: World) {
    w.ops + 1 > cfg.maxOps
  }

  function Tick(w: World): World {
    w.(ops := w.ops + 1)
  }

  /** `rt.at(line)`. */
  function MarkLine(w: World, line: nat): World {
    w.(line := line)
  }

  /** `budget()` followed by a computation that touches no state. */
  function Charged(cfg: Config, w: World, r: Result): Step {
    Step(Tick(w), if OverBudget(cfg, w) then Err(ToolErr("RATE_LIMITED")) else r)
  }

  predicate IsLineBreak(c: char) {
    c == '\n' || c == '\r' || c as int == 0x2028 || c as int == 0x2029
  }

  /** How many characters `\d+$` can take at the end of `s`. */
  function DigitRun(s: string): (k: nat)
    ensures k <= |s| && AllDigits(s[|s| - k..])
    ensures k < |s| ==> !IsDigit(s[|s| - k - 1])
  {
    if s != "" && IsDigit(s[|s| - 1]) then 1 + DigitRun(s[..|s| - 1]) else 0
  }

  /** The number `/^.*_(\d+)$/` captures in an id, if it matches. */
  function IdSuffix(id: Value): Option<nat> {
    if !id.Str? then None
    else
      var s := id.s;
      var k := DigitRun(s);
      if k > 0 && k < |s| && s[|s| - k - 1] == '_' && (forall i | 0 <= i < |s| :: !IsLineBreak(s[i]))
      then Some(Read(s[|s| - k..])) else None
  }

  function MaxSuffix(rows: seq<Value>): nat {
    if rows == [] then 0
    else
      var rest := MaxSuffix(rows[..|rows| - 1]);
      match IdSuffix(RecId(rows[|rows| - 1]))
      case None => rest
      case Some(k) => if k > rest then k else rest
  }

  /** The counter `nextId` increments: the stored one, else the largest numeric suffix among live rows. */
  function Counter(store: Store, counters: map<string, nat>, entity: string): nat {
    if entity in counters then counters[entity] else MaxSuffix(Rows(store, entity))
  }

  function IdOf(entity: string, n: nat): Value {
    Str(entity + "_" + Show(n))
  }

  predicate InjectionMatches(inj: Injection, sym: string, name: string) {
    (inj.tool != "" && inj.tool == sym) || (inj.name != "" && inj.name == name)
  }

  predicate Fires(inj: Injection, sym: string, name: string) {
    InjectionMatches(inj, sym, name) && inj.times != 0
  }

  /** The first live matching injection fires, once. */
  function Inject(injs: seq<Injection>, sym: string, name: string): (seq<Injection>, string) {
    if injs == [] then ([], "")
    else if Fires(injs[0], sym, name) then
      ([if injs[0].times > 0 then injs[0].(times := injs[0].times - 1) else injs[0]] + injs[1..], injs[0].code)
    else
      var (rest, code) := Inject(injs[1..], sym, name);
      ([injs[0]] + rest, code)
  }

  // ---------------------------------------------------------------- tool engine

  datatype ImplOut = ImplOut(store: Store, counters: map<string, nat>, r: Result)

  function Applied(rec: map<string, Value>, defaults: seq<(string, Default)>, now: int): map<string, Value>
    decreases defaults
  {
    if defaults == [] then rec
    else
      var (k, d) := defaults[0];
      Applied(rec[k := match d case Fixed(v) => v case NowDefault => Num(now)], defaults[1..], now)
  }

  /** The parameter fields from index `i` on; a null slot or an absent value keeps what the record has. */
  function WithParams(rec: map<string, Value>, names: seq<Option<string>>, params: seq<Value>,
                      i: nat): map<string, Value>
    requires i <= |names|
    decreases |names| - i
  {
    if i == |names| then rec
    else
      var v := ParamAt(params, i);
      var skip := names[i].None? || names[i].value == "" || Absent(v);
      WithParams(if skip then rec else rec[names[i].value := v], names, params, i + 1)
  }

  function WithConsts(rec: map<string, Value>, sets: seq<(string, Value)>): map<string, Value>
    decreases sets
  {
    if sets == [] then rec else WithConsts(rec[sets[0].0 := sets[0].1], sets[1..])
  }

  function WithSetParams(rec: map<string, Value>, sets: seq<(string, nat)>, params: seq<Value>): map<string, Value>
    decreases sets
  {
    if sets == [] then rec
    else
      var v := ParamAt(params, sets[0].1);
      WithSetParams(if Absent(v) then rec else rec[sets[0].0 := v], sets[1..], params)
  }

  function Mapped(keys: seq<string>, params: seq<Value>, i: nat, rec: map<string, Value>): map<string, Value>
    requires i <= |keys|
    decreases |keys| - i
  {
    if i == |keys| then rec else Mapped(keys, params, i + 1, rec[keys[i] := ParamAt(params, i)])
  }

  function NotFound(): Result {
    Err(ToolErr("NOT_FOUND"))
  }

  function RecFields(r: Value): map<string, Value> {
    if r.Rec? then r.fields else map[]
  }

  function Updated(impl: Impl, rec: Value, params: seq<Value>): Value
    requires impl.Update?
  {
    Rec(WithSetParams(WithConsts(RecFields(rec), impl.setConst), impl.setFromParams, params))
  }

  function Created(cfg: Config, impl: Impl, n: nat, params: seq<Value>): Value
    requires impl.Create?
  {
    Rec(WithParams(Applied(map["id" := IdOf(impl.entity, n)], impl.defaults, cfg.now), impl.paramFields, params, 0))
  }

  function SetRows(store: Store, entity: string, rows: seq<Value>): Store {
    store.(entities := store.entities[entity := rows])
  }

  function RunImpl(cfg: Config, impl: Impl, store: Store, counters: map<string, nat>, params: seq<Value>): ImplOut {
    match impl
    case ListAll(e) => ImplOut(store, counters, Ok(List(Rows(store, e))))
    case ListBy(e, f, ip) =>
      var key := ParamAt(params, ip);
      ImplOut(store, counters, Ok(List(KeepWhere(Rows(store, e), f, key))))
    case GetOne(e, ip) =>
      var rows := Rows(store, e);
      var i := FindIndex(rows, ParamAt(params, ip));
      ImplOut(store, counters, if i == |rows| then NotFound() else Ok(rows[i]))
    case Create(e, _, _) =>
      var n := Counter(store, counters, e) + 1;
      var rec := Created(cfg, impl, n, params);
      ImplOut(SetRows(store, e, Rows(store, e) + [rec]), counters[e := n], Ok(rec))
    case Update(e, ip, _, _) =>
      var rows := Rows(store, e);
      var i := FindIndex(rows, ParamAt(params, ip));
      if i == |rows| then ImplOut(store, counters, NotFound())
      else
        var rec := Updated(impl, rows[i], params);
        ImplOut(SetRows(store, e, rows[i := rec]), counters, Ok(rec))
    case Delete(e, ip) =>
      var rows := Rows(store, e);
      var i := FindIndex(rows, ParamAt(params, ip));
      if i == |rows| then ImplOut(store, counters, NotFound())
      else ImplOut(SetRows(store, e, rows[..i] + rows[i + 1..]), counters, Ok(Nil))
    case Send(channel, keys) =>
      var entry := Rec(Mapped(keys, params, 0, map["channel" := Str(channel)]));
      ImplOut(store.(outbox := store.outbox + [entry]), counters, Ok(Nil))
    case Pay(keys) =>
      var entry := Rec(Mapped(keys, params, 0, map[]));
      ImplOut(store.(payments := store.payments + [entry]), counters, Ok(Nil))
    case NoopEmpty(kind) =>
      ImplOut(store, counters,
              if kind == "LIST" then Ok(List([])) else if kind == "STR" then Ok(Str("")) else NotFound())
    case NoopRecord(e, ip) =>
      var rows := Rows(store, e);
      var i := FindIndex(rows, ParamAt(params, ip));
      ImplOut(store, counters, if i == |rows| then NotFound() else Ok(rows[i]))
    case Noop => ImplOut(store, counters, Ok(Nil))
    case Foreign(name) =>
      var (store', r) := cfg.foreign(name, store, params);
      ImplOut(store', counters, r)
  }

  function KeepWhere(rows: seq<Value>, field: string, key: Value): (kept: seq<Value>) {
    if rows == [] then []
    else
      (if Raw(rows[0], field) == key then [rows[0]] else []) + KeepWhere(rows[1..], field, key)
  }

  /** The parameter loop of `rt.call`: missing optional arguments become null, ID slots narrow records. */
  function Narrowed(params: seq<ToolParam>, args: seq<Value>, i: nat): Res<seq<Value>, Exn>
    requires i <= |params|
    decreases |params| - i
  {
    if i == |params| then Ok([])
    else
      var v := ParamAt(args, i);
      if v.Undef? && params[i].required then Err(ToolErr("INVALID_ARGUMENT"))
      else
        var v1 := if v.Undef? then Nil else v;
        var v2 := if params[i].isId then NarrowId(v1) else v1;
        match Narrowed(params, args, i + 1)
        case Err(e) => Err(e)
        case Ok(vs) => Ok([v2] + vs)
  }

  predicate IsIrreversible(cfg: Config, sym: string) {
    sym in cfg.tools && Irreversible in cfg.tools[sym].effects
  }

  /** The gate of `rt.call` stops this tool. */
  predicate Gates(cfg: Config, sym: string) {
    IsIrreversible(cfg, sym) && !cfg.approval && !cfg.preview
  }

  function ErrorText(e: Exn): string {
    match e case ToolErr(c) => c case Blocked(t, _) => t case JsErr(m) => m
  }

  function Logged(w: World, sym: string, name: string, params: seq<Value>, r: Result): World {
    w.(calls := w.calls + [CallEntry(sym, name, params, r.Ok?, if r.Ok? then "" else ErrorText(r.error))])
  }

  /** `rt.call` past the gate: log, injection, dispatch. */
  function Dispatch(cfg: Config, w: World, sym: string, tool: Tool, params: seq<Value>): Step {
    var (injs, code) := Inject(w.injections, sym, tool.name);
    var w1 := w.(injections := injs);
    if code != "" then
      var r := Err(ToolErr(code));
      Step(Logged(w1, sym, tool.name, params, r), r)
    else
      var o := RunImpl(cfg, tool.impl, w1.store, w1.counters, params);
      Step(Logged(w1.(store := o.store, counters := o.counters), sym, tool.name, params, o.r), o.r)
  }

  function RtCall(cfg: Config, w: World, sym: string, args: seq<Value>): Step {
    var w1 := Tick(w);
    if OverBudget(cfg, w) then Step(w1, Err(ToolErr("RATE_LIMITED")))
    else if sym !in cfg.tools then Step(w1, NotFound())
    else
      var tool := cfg.tools[sym];
      match Narrowed(tool.params, args, 0)
      case Err(e) => Step(w1, Err(e))
      case Ok(params) =>
        if Gates(cfg, sym) then Step(w1, Err(Blocked(sym, params)))
        else Dispatch(cfg, w1, sym, tool, params)
  }

  // ---------------------------------------------------------------- the pure rt.* functions

  function TypeError(): Result {
    Err(JsErr("TypeError"))
  }

  function UnknownField(): Result {
    Err(JsErr("unknown field"))
  }

  function FldValue(cfg: Config, x: Value, sym: string): Result {
    if Absent(x) then Err(JsErr("field access on NULL"))
    else if sym !in cfg.fields then UnknownField()
    else Ok(Prop(x, cfg.fields[sym]))
  }

  function RtFld(cfg: Config, w: World, x: Value, sym: string): Step {
    Charged(cfg, w, FldValue(cfg, x, sym))
  }

  function RtConstant(cfg: Config, sym: string): Result {
    if sym in cfg.constants then Ok(cfg.constants[sym]) else Err(JsErr("unknown constant"))
  }

  function AsNumber(v: Value): Option<int> {
    match v
    case Num(n) => Some(n)
    case Nil => Some(0)
    case Bool(b) => Some(if b then 1 else 0)
    case _ => None
  }

  predicate TextLess(a: string, b: string) {
    b != "" && (a == "" || a[0] < b[0] || (a[0] == b[0] && TextLess(a[1..], b[1..])))
  }

  /** JavaScript's `<`; undefined compares as NaN, so never. */
  predicate Less(cfg: Config, a: Value, b: Value) {
    if a.Undef? || b.Undef? then false
    else if a.Str? && b.Str? then TextLess(a.s, b.s)
    else if AsNumber(a).Some? && AsNumber(b).Some? then AsNumber(a).value < AsNumber(b).value
    else cfg.coerceLess(a, b)
  }

  function TextOf(p: Printer, v: Value): string {
    if v.Str? then v.s else p.text(v)
  }

  predicate HasSubstring(s: string, t: string) {
    t <= s || (s != "" && HasSubstring(s[1..], t))
  }

  predicate SameNormed(cfg: Config, a: Value, b: Value) {
    if a.Str? && b.Str? then cfg.norm(a.s) == cfg.norm(b.s) else a == b
  }

  predicate CmpHolds(cfg: Config, op: Cmp, a0: Value, b0: Value) {
    var a, b := NarrowId(a0), NarrowId(b0);
    match op
    case EQ => SameNormed(cfg, a, b)
    case LT => Less(cfg, a, b)
    case GT => Less(cfg, b, a)
    case CONTAINS => a.Str? && HasSubstring(cfg.norm(a.s), cfg.norm(TextOf(cfg.printer, b)))
    case IN => b.List? && exists i | 0 <= i < |b.elems| :: SameNormed(cfg, NarrowId(b.elems[i]), a)
    case EMPTY => false
  }

  function RtCmp(cfg: Config, w: World, op: Cmp, a: Value, b: Value): Step {
    Charged(cfg, w, if op.EMPTY? then Err(JsErr("bad cmp")) else Ok(Bool(CmpHolds(cfg, op, a, b))))
  }

  predicate IsEmpty(v: Value) {
    Absent(v) || v == List([])
  }

  function RtEmpty(cfg: Config, w: World, v: Value): Step {
    Charged(cfg, w, Ok(Bool(IsEmpty(v))))
  }

  /** What `for (x of v)` walks. */
  function Iterable(v: Value): Res<seq<Value>, Exn> {
    match v
    case List(es) => Ok(es)
    case Str(s) => Ok(seq(|s|, i requires 0 <= i < |s| => Str(s[i..i + 1])))
    case _ => Err(JsErr("TypeError"))
  }

  predicate AnyAbsent(xs: seq<Value>) {
    exists i | 0 <= i < |xs| :: Absent(xs[i])
  }

  function MapValue(cfg: Config, v: Value, sym: string): Result {
    if sym !in cfg.fields then UnknownField()
    else if !v.List? || AnyAbsent(v.elems) then TypeError()
    else Ok(List(seq(|v.elems|, i requires 0 <= i < |v.elems| => Prop(v.elems[i], cfg.fields[sym]))))
  }

  function RtMap(cfg: Config, w: World, v: Value, sym: string): Step {
    Charged(cfg, w, MapValue(cfg, v, sym))
  }

  function RtCount(v: Value): Result {
    match v
    case Undef => TypeError()
    case Nil => TypeError()
    case List(es) => Ok(Num(|es|))
    case Str(s) => Ok(Num(|s|))
    case _ => Ok(Undef)
  }

  function RtFirst(v: Value): Result {
    match v
    case Undef => TypeError()
    case Nil => TypeError()
    case List(es) => Ok(if es == [] then Nil else es[0])
    case Str(s) => Ok(if s == "" then Nil else Str(s[..1]))
    case _ => Ok(Nil)
  }

  /** The values behind the positions of an indexable value; None where `length` is undefined. */
  function Indexable(v: Value): Option<seq<Value>> {
    var it := Iterable(v);
    if it.Ok? then Some(it.value) else None
  }

  /** A negative index is out of range before the list is looked at; null and truth values compare as numbers but index
      nothing. */
  function SelectValue(v: Value, i: Value): Result {
    var n := AsNumber(i);
    if n.Some? && n.value < 0 then Err(ToolErr("INDEX_OUT_OF_RANGE"))
    else if Absent(v) then TypeError()
    else
      var xs := Indexable(v);
      if n.Some? && xs.Some? && n.value >= |xs.value| then Err(ToolErr("INDEX_OUT_OF_RANGE"))
      else Ok(if i.Num? && xs.Some? then xs.value[n.value] else Undef)
  }

  function RtSelect(cfg: Config, w: World, v: Value, i: Value): Step {
    Charged(cfg, w, SelectValue(v, i))
  }

  /** What a slot of a template shows. */
  function Rendered(p: Printer, v: Value, kind: string): string {
    if Absent(v) then ""
    else if kind == "TIME" && v.Num? then p.date(v.n)
    else if v.Rec? && Raw(v, "id") != Undef then TextOf(p, Raw(v, "id"))
    else if v.Rec? || v.List? then p.json(v)
    else TextOf(p, v)
  }

  /** The template with its slots `{i}` filled. */
  function Filled(p: Printer, s: string, vals: seq<Value>, kinds: seq<string>): string {
    if s == "" then ""
    else
      var k := FrontDigits(s[1..]);
      if s[0] == '{' && k > 0 && k + 1 < |s| && s[k + 1] == '}' then
        var i := Read(s[1..][..k]);
        Rendered(p, ParamAt(vals, i), if i < |kinds| then kinds[i] else "") + Filled(p, s[k + 2..], vals, kinds)
      else [s[0]] + Filled(p, s[1..], vals, kinds)
  }

  function RtFormat(cfg: Config, w: World, template: Value, vals: seq<Value>, kinds: seq<string>): Step {
    Charged(cfg, w, Ok(Str(Filled(cfg.printer, TextOf(cfg.printer, template), vals, kinds))))
  }

  /** The comparator of `sortBy` puts x strictly before y. */
  predicate Before(cfg: Config, name: string, desc: bool, x: Value, y: Value) {
    var a, b := Raw(x, name), Raw(y, name);
    if desc then Less(cfg, b, a) && !Less(cfg, a, b) else Less(cfg, a, b)
  }

  function Inserted(before: (Value, Value) -> bool, x: Value, ys: seq<Value>): seq<Value> {
    if ys == [] || !before(ys[0], x) then [x] + ys else [ys[0]] + Inserted(before, x, ys[1..])
  }

  /** A stable sort: equal keys keep their order. */
  function StableSort(before: (Value, Value) -> bool, xs: seq<Value>): seq<Value> {
    if xs == [] then [] else Inserted(before, xs[0], StableSort(before, xs[1..]))
  }

  function SortValue(cfg: Config, v: Value, sym: string, desc: bool): Result {
    if sym !in cfg.fields then UnknownField()
    else if !v.List? || (|v.elems| > 1 && AnyAbsent(v.elems)) then TypeError()
    else Ok(List(StableSort((x, y) => Before(cfg, cfg.fields[sym], desc, x, y), v.elems)))
  }

  function RtSort(cfg: Config, w: World, v: Value, sym: string, desc: bool): Step {
    Charged(cfg, w, SortValue(cfg, v, sym, desc))
  }

  // ---------------------------------------------------------------- MOST / LEAST

  /** The Map of counts, keys in insertion order. */
  type Tally = seq<(Value, nat)>

  function KeyAt(t: Tally, k: Value): (i: nat)
    ensures i <= |t|
    ensures i < |t| ==> t[i].0 == k
    ensures forall j | 0 <= j < i :: t[j].0 != k
  {
    if t == [] || t[0].0 == k then 0 else 1 + KeyAt(t[1..], k)
  }

  /** Seeding a count with 0: an existing key keeps its place. */
  function Seeded(t: Tally, cands: seq<Value>): Tally
    decreases cands
  {
    if cands == [] then t
    else
      var k := NarrowId(cands[0]);
      var i := KeyAt(t, k);
      Seeded(if i < |t| then t[i := (k, 0)] else t + [(k, 0)], cands[1..])
  }

  function Bumped(t: Tally, k: Value, open: bool): Tally {
    var i := KeyAt(t, k);
    if i < |t| then t[i := (k, t[i].1 + 1)] else if open then t + [(k, 1)] else t
  }

  function Tallied(t: Tally, xs: seq<Value>, name: string, open: bool): Tally
    decreases xs
  {
    if xs == [] then t else Tallied(Bumped(t, NarrowId(Prop(xs[0], name)), open), xs[1..], name, open)
  }

  predicate Beats(n: nat, best: nat, least: bool) {
    if least then n < best else n > best
  }

  /** The scan over the counts: the first key no later key beats. */
  function Best(t: Tally, i: nat, best: Option<(Value, nat)>, least: bool): Value
    requires i <= |t|
    decreases |t| - i
  {
    if i == |t| then (if best.Some? then best.value.0 else Nil)
    else if best.None? || Beats(t[i].1, best.value.1, least) then Best(t, i + 1, Some(t[i]), least)
    else Best(t, i + 1, best, least)
  }

  function CountsOf(xs: seq<Value>, name: string, cands: Value): Tally {
    if cands.List? then Tallied(Seeded([], cands.elems), xs, name, false) else Tallied([], xs, name, true)
  }

  function ExtremeValue(cfg: Config, v: Value, sym: string, cands: Value, least: bool): Result {
    if sym !in cfg.fields then UnknownField()
    else match Iterable(v)
      case Err(e) => Err(e)
      case Ok(xs) => if AnyAbsent(xs) then TypeError() else Ok(Best(CountsOf(xs, cfg.fields[sym], cands), 0, None,
          least))
  }

  function RtExtreme(cfg: Config, w: World, v: Value, sym: string, cands: Value, least: bool): Step {
    Charged(cfg, w, ExtremeValue(cfg, v, sym, cands, least))
  }
}
