/** What tools and calls do. */
module EngineLaws {
  import opened Common
  import opened Decimal
  import opened Ir
  import opened Runtime
  import opened Overlay
  import opened Positions

  // ---------------------------------------------------------------- rows

  /** `x[name]` is `v`, a property that is not there being undefined. */
  predicate Holds(x: Value, name: string, v: Value) {
    if x.Rec? && name in x.fields then x.fields[name] == v else v.Undef?
  }

  /** The rows of entity `e`; one without an entry has none. */
  predicate RowsAre(store: Store, e: string, rows: seq<Value>) {
    if e in store.entities then store.entities[e] == rows else rows == []
  }

  /** Parameter `i` is `v`; one past the end is undefined. */
  predicate ParamIs(params: seq<Value>, i: nat, v: Value) {
    if i < |params| then params[i] == v else v.Undef?
  }

  /** Row `i` is the first with this id. */
  predicate FirstWith(rows: seq<Value>, id: Value, i: nat) {
    i < |rows| && Holds(rows[i], "id", id) && forall j | 0 <= j < i :: !Holds(rows[j], "id", id)
  }

  predicate NoneWith(rows: seq<Value>, id: Value) {
    forall j | 0 <= j < |rows| :: !Holds(rows[j], "id", id)
  }

  /** `out` lists, in order, exactly the rows whose field is `key`. */
  ghost predicate Selected(rows: seq<Value>, field: string, key: Value, out: seq<Value>, idx: seq<nat>) {
    Rising(idx) && StandAt(rows, out, idx) && forall i | 0 <= i < |rows| :: i in idx <==> Holds(rows[i], field, key)
  }

  /** The store changes in the rows of `e` only, which become `rows`. */
  ghost predicate Replaced(a: Store, b: Store, e: string, rows: seq<Value>) {
    && b.outbox == a.outbox && b.payments == a.payments
    && (forall other | other != e :: (other in b.entities <==> other in a.entities) &&
                                     (other in a.entities ==> b.entities[other] == a.entities[other]))
    && e in b.entities && b.entities[e] == rows
  }

  // ---------------------------------------------------------------- ids

  /** No line feed, carriage return, line or paragraph separator. */
  predicate OneLine(s: string) {
    forall i | 0 <= i < |s| :: s[i] as int !in {10, 13, 0x2028, 0x2029}
  }

  /** The id is `p_d`, one line, with `d` the digits of `k`. */
  predicate EndsIn(id: Value, p: string, d: string, k: nat) {
    id == Str(p + "_" + d) && d != "" && AllDigits(d) && Read(d) == k && OneLine(p)
  }

  lemma BreakExactly(c: char)
    ensures IsLineBreak(c) <==> c as int in {10, 13, 0x2028, 0x2029}
  {
    assert '\n' as int == 10 && '\r' as int == 13;
  }

  lemma SuffixSplits(s: string, p: string, d: string)
    requires s == p + "_" + d && AllDigits(d)
    ensures DigitRun(s) == |d|
    decreases d
  {
    if d == "" {
      assert s[|s| - 1] == '_';
    } else {
      assert s[|s| - 1] == d[|d| - 1];
      assert s[..|s| - 1] == p + "_" + d[..|d| - 1];
      SuffixSplits(s[..|s| - 1], p, d[..|d| - 1]);
    }
  }

  lemma LineExactly(s: string)
    ensures OneLine(s) <==> forall i | 0 <= i < |s| :: !IsLineBreak(s[i])
  {
    forall i | 0 <= i < |s|
      ensures IsLineBreak(s[i]) <==> s[i] as int in {10, 13, 0x2028, 0x2029}
    {
      BreakExactly(s[i]);
    }
  }

  lemma LineParts(s: string, p: string, d: string)
    requires s == p + "_" + d && AllDigits(d)
    ensures OneLine(s) <==> OneLine(p)
  {
    if OneLine(s) { assert forall i | 0 <= i < |p| :: p[i] == s[i]; }
    if OneLine(p) {
      forall i | 0 <= i < |s|
        ensures s[i] as int !in {10, 13, 0x2028, 0x2029}
      {
        if i < |p| { assert s[i] == p[i]; } else if i > |p| { assert s[i] == d[i - |p| - 1] && IsDigit(s[i]); }
      }
    }
  }

  lemma SuffixFound(s: string, p: string, d: string, k: nat)
    requires EndsIn(Str(s), p, d, k)
    ensures IdSuffix(Str(s)) == Some(k)
  {
    SuffixSplits(s, p, d);
    LineExactly(s);
    LineParts(s, p, d);
    hide IsLineBreak;
    hide DigitRun;
    hide Read;
    assert s[|s| - |d|..] == d && s[|s| - |d| - 1] == '_';
  }

  /** The number read off an id. */
  lemma SuffixExactly(id: Value, k: nat)
    ensures IdSuffix(id) == Some(k) <==> exists p, d :: EndsIn(id, p, d, k)
  {
    if id.Str? {
      var s := id.s;
      var n := DigitRun(s);
      if IdSuffix(id) == Some(k) {
        var p, d := s[..|s| - n - 1], s[|s| - n..];
        assert s == p + "_" + d;
        LineExactly(s);
        LineParts(s, p, d);
        assert EndsIn(id, p, d, k);
      }
      hide EndsIn;
      hide IdSuffix;
      forall p, d | EndsIn(id, p, d, k)
        ensures IdSuffix(id) == Some(k)
      {
        SuffixFound(s, p, d, k);
      }
    }
  }

  /** Some row's id ends in the number `k`. */
  ghost predicate SuffixAmong(rows: seq<Value>, k: nat) {
    exists i, id, p, d :: 0 <= i < |rows| && Holds(rows[i], "id", id) && EndsIn(id, p, d, k)
  }

  /** `n` follows the entity's counter, or else the largest number any of its ids ends in. */
  ghost predicate NextNumber(rows: seq<Value>, counters: map<string, nat>, e: string, n: nat) {
    n > 0 &&
    if e in counters then n - 1 == counters[e]
    else (n - 1 == 0 || SuffixAmong(rows, n - 1)) && forall k: nat | SuffixAmong(rows, k) :: k <= n - 1
  }

  lemma {:induction false} MaxSuffixAmong(rows: seq<Value>)
    ensures MaxSuffix(rows) == 0 || SuffixAmong(rows, MaxSuffix(rows))
    ensures forall k: nat | SuffixAmong(rows, k) :: k <= MaxSuffix(rows)
    decreases rows
  {
    hide IdSuffix;
    hide EndsIn;
    if rows == [] {
    } else {
      var m := |rows| - 1;
      var id := RecId(rows[m]);
      MaxSuffixAmong(rows[..m]);
      var rest := MaxSuffix(rows[..m]);
      if SuffixAmong(rows[..m], rest) { AmongMore(rows, rest); }
      var own := IdSuffix(id);
      if own.Some? {
        SuffixExactly(id, own.value);
        var p, d :| EndsIn(id, p, d, own.value);
        assert Holds(rows[m], "id", id);
        assert SuffixAmong(rows, own.value);
      }
      forall k: nat | SuffixAmong(rows, k)
        ensures k <= MaxSuffix(rows)
      {
        AmongLess(rows, k);
        if own != Some(k) { assert SuffixAmong(rows[..m], k); }
      }
    }
  }

  lemma AmongMore(rows: seq<Value>, k: nat)
    requires rows != [] && SuffixAmong(rows[..|rows| - 1], k)
    ensures SuffixAmong(rows, k)
  {
    hide EndsIn;
    hide Holds;
    var i, id, p, d :| 0 <= i < |rows| - 1 && Holds(rows[..|rows| - 1][i], "id", id) && EndsIn(id, p, d, k);
    assert Holds(rows[i], "id", id);
  }

  lemma AmongLess(rows: seq<Value>, k: nat)
    requires rows != [] && SuffixAmong(rows, k)
    ensures SuffixAmong(rows[..|rows| - 1], k) || IdSuffix(RecId(rows[|rows| - 1])) == Some(k)
  {
    hide EndsIn;
    hide IdSuffix;
    var i, id, p, d :| 0 <= i < |rows| && Holds(rows[i], "id", id) && EndsIn(id, p, d, k);
    if i == |rows| - 1 {
      SuffixExactly(id, k);
      assert RecId(rows[i]) == id;
    } else {
      assert rows[..|rows| - 1][i] == rows[i];
    }
  }

  // ---------------------------------------------------------------- records

  /** Default `i` sets its key; "$now" stands for the clock. */
  ghost function DefaultSets(defaults: seq<(string, Default)>): (nat, string) -> bool {
    (i: nat, k: string) => i < |defaults| && defaults[i].0 == k
  }

  ghost function DefaultGives(defaults: seq<(string, Default)>, now: int): nat -> Value {
    (i: nat) => if i < |defaults| then (match defaults[i].1 case Fixed(v) => v case NowDefault => Num(now)) else Undef
  }

  predicate Given(params: seq<Value>, i: nat) {
    i < |params| && params[i] != Undef && params[i] != Nil
  }

  /** A parameter that is given sets the field its slot names, if it names one. */
  ghost function SlotSets(names: seq<Option<string>>, params: seq<Value>): (nat, string) -> bool {
    (i: nat, k: string) => i < |names| && names[i] == Some(k) && k != "" && Given(params, i)
  }

  ghost function ParamGives(params: seq<Value>): nat -> Value {
    (i: nat) => if i < |params| then params[i] else Undef
  }

  ghost function ConstSets(consts: seq<(string, Value)>): (nat, string) -> bool {
    (i: nat, k: string) => i < |consts| && consts[i].0 == k
  }

  ghost function ConstGives(consts: seq<(string, Value)>): nat -> Value {
    (i: nat) => if i < |consts| then consts[i].1 else Undef
  }

  ghost function FromSets(sets: seq<(string, nat)>, params: seq<Value>): (nat, string) -> bool {
    (i: nat, k: string) => i < |sets| && sets[i].0 == k && Given(params, sets[i].1)
  }

  ghost function FromGives(sets: seq<(string, nat)>, params: seq<Value>): nat -> Value {
    (i: nat) => if i < |sets| && sets[i].1 < |params| then params[sets[i].1] else Undef
  }

  ghost function KeySets(keys: seq<string>): (nat, string) -> bool {
    (i: nat, k: string) => i < |keys| && keys[i] == k
  }

  lemma {:induction false} AppliedLaw(rec: map<string, Value>, defaults: seq<(string, Default)>, now: int, i: nat)
    requires i <= |defaults|
    ensures Overlaid(rec, Applied(rec, defaults[i..], now), i, |defaults|, DefaultSets(defaults),
                     DefaultGives(defaults, now))
    decreases |defaults| - i
  {
    hide Overlaid;
    var sets, val := DefaultSets(defaults), DefaultGives(defaults, now);
    if i == |defaults| {
      OverlaidNone(rec, |defaults|, sets, val);
    } else {
      assert defaults[i..][0] == defaults[i] && defaults[i..][1..] == defaults[i + 1..];
      AppliedLaw(rec[defaults[i].0 := val(i)], defaults, now, i + 1);
      OverlaidSet(rec, defaults[i].0, Applied(rec, defaults[i..], now), i, |defaults|, sets, val);
    }
  }

  lemma {:induction false} WithParamsLaw(rec: map<string, Value>, names: seq<Option<string>>, params: seq<Value>,
                                         i: nat)
    requires i <= |names|
    ensures Overlaid(rec, WithParams(rec, names, params, i), i, |names|, SlotSets(names, params), ParamGives(params))
    decreases |names| - i
  {
    hide Overlaid;
    var sets, val := SlotSets(names, params), ParamGives(params);
    if i == |names| {
      OverlaidNone(rec, |names|, sets, val);
    } else if names[i].None? || names[i].value == "" || Absent(ParamAt(params, i)) {
      WithParamsLaw(rec, names, params, i + 1);
      OverlaidSkip(rec, WithParams(rec, names, params, i), i, |names|, sets, val);
    } else {
      WithParamsLaw(rec[names[i].value := val(i)], names, params, i + 1);
      OverlaidSet(rec, names[i].value, WithParams(rec, names, params, i), i, |names|, sets, val);
    }
  }

  lemma {:induction false} WithConstsLaw(rec: map<string, Value>, consts: seq<(string, Value)>, i: nat)
    requires i <= |consts|
    ensures Overlaid(rec, WithConsts(rec, consts[i..]), i, |consts|, ConstSets(consts), ConstGives(consts))
    decreases |consts| - i
  {
    hide Overlaid;
    var sets, val := ConstSets(consts), ConstGives(consts);
    if i == |consts| {
      OverlaidNone(rec, |consts|, sets, val);
    } else {
      assert consts[i..][0] == consts[i] && consts[i..][1..] == consts[i + 1..];
      WithConstsLaw(rec[consts[i].0 := val(i)], consts, i + 1);
      OverlaidSet(rec, consts[i].0, WithConsts(rec, consts[i..]), i, |consts|, sets, val);
    }
  }

  lemma {:induction false} WithSetParamsLaw(rec: map<string, Value>, from: seq<(string, nat)>, params: seq<Value>,
                                            i: nat)
    requires i <= |from|
    ensures Overlaid(rec, WithSetParams(rec, from[i..], params), i, |from|, FromSets(from, params),
                     FromGives(from, params))
    decreases |from| - i
  {
    hide Overlaid;
    var sets, val := FromSets(from, params), FromGives(from, params);
    if i == |from| {
      OverlaidNone(rec, |from|, sets, val);
    } else {
      assert from[i..][0] == from[i] && from[i..][1..] == from[i + 1..];
      if Absent(ParamAt(params, from[i].1)) {
        assert !Given(params, from[i].1);
        WithSetParamsLaw(rec, from, params, i + 1);
        OverlaidSkip(rec, WithSetParams(rec, from[i..], params), i, |from|, sets, val);
      } else {
        assert val(i) == ParamAt(params, from[i].1) && Given(params, from[i].1);
        WithSetParamsLaw(rec[from[i].0 := val(i)], from, params, i + 1);
        OverlaidSet(rec, from[i].0, WithSetParams(rec, from[i..], params), i, |from|, sets, val);
      }
    }
  }

  lemma {:induction false} MappedLaw(keys: seq<string>, params: seq<Value>, i: nat, rec: map<string, Value>)
    requires i <= |keys|
    ensures Overlaid(rec, Mapped(keys, params, i, rec), i, |keys|, KeySets(keys), ParamGives(params))
    decreases |keys| - i
  {
    hide Overlaid;
    var sets, val := KeySets(keys), ParamGives(params);
    if i == |keys| {
      OverlaidNone(rec, |keys|, sets, val);
    } else {
      MappedLaw(keys, params, i + 1, rec[keys[i] := val(i)]);
      OverlaidSet(rec, keys[i], Mapped(keys, params, i, rec), i, |keys|, sets, val);
    }
  }

  /** The fields of a created record: its id, then the defaults, then the parameters that are given. */
  ghost predicate CreatedRecord(cfg: Config, impl: Impl, n: nat, params: seq<Value>, rec: map<string, Value>)
    requires impl.Create?
  {
    exists mid ::
      && Overlaid(map["id" := Str(impl.entity + "_" + Show(n))], mid, 0, |impl.defaults|, DefaultSets(impl.defaults),
                  DefaultGives(impl.defaults, cfg.now))
      && Overlaid(mid, rec, 0, |impl.paramFields|, SlotSets(impl.paramFields, params), ParamGives(params))
  }

  /** The fields of an updated record: those it had, then the constants, then the parameters that are given. */
  ghost predicate UpdatedRecord(impl: Impl, params: seq<Value>, was: Value, rec: map<string, Value>)
    requires impl.Update?
  {
    exists mid ::
      && Overlaid(if was.Rec? then was.fields else map[], mid, 0, |impl.setConst|, ConstSets(impl.setConst),
                  ConstGives(impl.setConst))
      && Overlaid(mid, rec, 0, |impl.setFromParams|, FromSets(impl.setFromParams, params),
                  FromGives(impl.setFromParams, params))
  }

  // ---------------------------------------------------------------- what each operation does

  /** The answer is the first record with this id, or NOT_FOUND when there is none. */
  ghost predicate Finds(store: Store, e: string, params: seq<Value>, ip: nat, r: Result) {
    exists rows, id :: RowsAre(store, e, rows) && ParamIs(params, ip, id) &&
      if NoneWith(rows, id) then r == Err(ToolErr("NOT_FOUND"))
      else exists i :: FirstWith(rows, id, i) && r == Ok(rows[i])
  }

  ghost predicate Lists(store: Store, e: string, r: Result) {
    r.Ok? && r.value.List? && RowsAre(store, e, r.value.elems)
  }

  ghost predicate ListsBy(store: Store, e: string, field: string, params: seq<Value>, ip: nat, r: Result) {
    r.Ok? && r.value.List? &&
    exists rows, key, idx :: RowsAre(store, e, rows) && ParamIs(params, ip, key) &&
                             Selected(rows, field, key, r.value.elems, idx)
  }

  ghost predicate Creates(cfg: Config, impl: Impl, params: seq<Value>, a: Store, c: map<string, nat>, o: ImplOut)
    requires impl.Create?
  {
    && o.r.Ok? && o.r.value.Rec?
    && exists rows, n :: RowsAre(a, impl.entity, rows) && NextNumber(rows, c, impl.entity, n) &&
                         CreatedRecord(cfg, impl, n, params, o.r.value.fields) &&
                         Replaced(a, o.store, impl.entity, rows + [o.r.value]) && o.counters == c[impl.entity := n]
  }

  ghost predicate Updates(impl: Impl, params: seq<Value>, a: Store, o: ImplOut)
    requires impl.Update?
  {
    exists rows, id :: RowsAre(a, impl.entity, rows) && ParamIs(params, impl.idParam, id) &&
      if NoneWith(rows, id) then o.r == Err(ToolErr("NOT_FOUND")) && o.store == a
      else
        o.r.Ok? && o.r.value.Rec? &&
        exists i :: FirstWith(rows, id, i) && UpdatedRecord(impl, params, rows[i], o.r.value.fields) &&
                    Replaced(a, o.store, impl.entity, rows[..i] + [o.r.value] + rows[i + 1..])
  }

  ghost predicate Deletes(impl: Impl, params: seq<Value>, a: Store, o: ImplOut)
    requires impl.Delete?
  {
    exists rows, id :: RowsAre(a, impl.entity, rows) && ParamIs(params, impl.idParam, id) &&
      if NoneWith(rows, id) then o.r == Err(ToolErr("NOT_FOUND")) && o.store == a
      else o.r == Ok(Nil) && exists i ::
          FirstWith(rows, id, i) && Replaced(a, o.store, impl.entity, rows[..i] + rows[i + 1..])
  }

  /** The entry holds each parameter under its key. */
  ghost predicate EntryOf(start: map<string, Value>, keys: seq<string>, params: seq<Value>, entry: Value) {
    entry.Rec? && Overlaid(start, entry.fields, 0, |keys|, KeySets(keys), ParamGives(params))
  }

  ghost predicate Does(cfg: Config, impl: Impl, params: seq<Value>, a: Store, c: map<string, nat>, o: ImplOut) {
    (!impl.Create? ==> o.counters == c) &&
    match impl
    case ListAll(e) => o.store == a && Lists(a, e, o.r)
    case ListBy(e, f, ip) => o.store == a && ListsBy(a, e, f, params, ip, o.r)
    case GetOne(e, ip) => o.store == a && Finds(a, e, params, ip, o.r)
    case NoopRecord(e, ip) => o.store == a && Finds(a, e, params, ip, o.r)
    case Create(_, _, _) => Creates(cfg, impl, params, a, c, o)
    case Update(_, _, _, _) => Updates(impl, params, a, o)
    case Delete(_, _) => Deletes(impl, params, a, o)
    case Send(channel, keys) =>
      o.r == Ok(Nil) && o.store.entities == a.entities && o.store.payments == a.payments &&
      exists entry ::
          EntryOf(map["channel" := Str(channel)], keys, params, entry) && o.store.outbox == a.outbox + [entry]
    case Pay(keys) =>
      o.r == Ok(Nil) && o.store.entities == a.entities && o.store.outbox == a.outbox &&
      exists entry :: EntryOf(map[], keys, params, entry) && o.store.payments == a.payments + [entry]
    case NoopEmpty(kind) =>
      o.store == a && o.r == (if kind == "LIST" then Ok(List([])) else if kind == "STR" then Ok(Str(""))
                              else Err(ToolErr("NOT_FOUND")))
    case Noop => o.store == a && o.r == Ok(Nil)
    case Foreign(name) => (o.store, o.r) == cfg.foreign(name, a, params)
  }

  // ---------------------------------------------------------------- the engine does so

  ghost function Matching(rows: seq<Value>, field: string, key: Value): seq<bool> {
    seq(|rows|, i requires 0 <= i < |rows| => Holds(rows[i], field, key))
  }

  lemma {:induction false} KeepPicks(rows: seq<Value>, field: string, key: Value) returns (idx: seq<nat>)
    ensures Picked(rows, Matching(rows, field, key), KeepWhere(rows, field, key), idx)
    decreases rows
  {
    hide Holds;
    hide Raw;
    if rows == [] {
      idx := [];
    } else {
      var rest := KeepPicks(rows[1..], field, key);
      assert Matching(rows, field, key)[1..] == Matching(rows[1..], field, key);
      RawHolds(rows[0], field, key);
      idx := PickMore(rows, Matching(rows, field, key), KeepWhere(rows[1..], field, key), rest);
    }
  }

  lemma KeepSelects(rows: seq<Value>, field: string, key: Value) returns (idx: seq<nat>)
    ensures Selected(rows, field, key, KeepWhere(rows, field, key), idx)
  {
    hide Holds;
    hide KeepWhere;
    hide Rising;
    hide StandAt;
    idx := KeepPicks(rows, field, key);
    var takes := Matching(rows, field, key);
    forall i | 0 <= i < |rows|
      ensures i in idx <==> Holds(rows[i], field, key)
    {
      assert takes[i] == Holds(rows[i], field, key);
    }
  }

  lemma RawHolds(x: Value, name: string, v: Value)
    ensures Raw(x, name) == v <==> Holds(x, name, v)
  {
  }

  lemma RowsLaw(store: Store, e: string)
    ensures RowsAre(store, e, Rows(store, e))
  {
  }

  lemma ParamLaw(params: seq<Value>, i: nat)
    ensures ParamIs(params, i, ParamAt(params, i))
  {
  }

  /** `FindIndex` is the first row with the id, or tells that there is none. */
  lemma FindLaw(rows: seq<Value>, id: Value)
    ensures var i := FindIndex(rows, id);
            if i == |rows| then NoneWith(rows, id) else FirstWith(rows, id, i) && !NoneWith(rows, id)
  {
    forall j | 0 <= j < |rows|
      ensures RecId(rows[j]) == id <==> Holds(rows[j], "id", id)
    {
      RawHolds(rows[j], "id", id);
    }
    hide Holds;
    hide RecId;
  }

  lemma FindsLaw(cfg: Config, impl: Impl, params: seq<Value>, a: Store, c: map<string, nat>)
    requires impl.GetOne? || impl.NoopRecord?
    ensures Does(cfg, impl, params, a, c, RunImpl(cfg, impl, a, c, params))
  {
    hide FirstWith;
    hide NoneWith;
    hide FindIndex;
    RowsLaw(a, impl.entity);
    ParamLaw(params, impl.idParam);
    FindLaw(Rows(a, impl.entity), ParamAt(params, impl.idParam));
  }

  lemma ListsByLaw(cfg: Config, impl: Impl, params: seq<Value>, a: Store, c: map<string, nat>)
    requires impl.ListBy?
    ensures Does(cfg, impl, params, a, c, RunImpl(cfg, impl, a, c, params))
  {
    hide Selected;
    RowsLaw(a, impl.entity);
    ParamLaw(params, impl.idParam);
    var idx := KeepSelects(Rows(a, impl.entity), impl.field, ParamAt(params, impl.idParam));
  }

  lemma ReplacedLaw(a: Store, e: string, rows: seq<Value>)
    ensures Replaced(a, SetRows(a, e, rows), e, rows)
  {
  }

  lemma CreatesLaw(cfg: Config, impl: Impl, params: seq<Value>, a: Store, c: map<string, nat>)
    requires impl.Create?
    ensures Does(cfg, impl, params, a, c, RunImpl(cfg, impl, a, c, params))
  {
    hide Overlaid;
    hide NextNumber;
    hide Replaced;
    hide RowsAre;
    var e := impl.entity;
    var rows, n := Rows(a, e), Counter(a, c, e) + 1;
    RowsLaw(a, e);
    NumberLaw(a, c, e);
    hide Counter;
    var start := map["id" := Str(e + "_" + Show(n))];
    var mid := Applied(start, impl.defaults, cfg.now);
    AppliedLaw(start, impl.defaults, cfg.now, 0);
    assert impl.defaults[0..] == impl.defaults;
    WithParamsLaw(mid, impl.paramFields, params, 0);
    var rec := Created(cfg, impl, n, params);
    assert CreatedRecord(cfg, impl, n, params, rec.fields);
    hide CreatedRecord;
    ReplacedLaw(a, e, rows + [rec]);
  }

  lemma NumberLaw(a: Store, c: map<string, nat>, e: string)
    ensures NextNumber(Rows(a, e), c, e, Counter(a, c, e) + 1)
  {
    hide SuffixAmong;
    MaxSuffixAmong(Rows(a, e));
  }

  lemma UpdatesLaw(cfg: Config, impl: Impl, params: seq<Value>, a: Store, c: map<string, nat>)
    requires impl.Update?
    ensures Does(cfg, impl, params, a, c, RunImpl(cfg, impl, a, c, params))
  {
    hide Overlaid;
    hide FirstWith;
    hide NoneWith;
    hide FindIndex;
    hide Replaced;
    hide RowsAre;
    hide ParamIs;
    hide SetRows;
    var e := impl.entity;
    var rows, id := Rows(a, e), ParamAt(params, impl.idParam);
    RowsLaw(a, e);
    ParamLaw(params, impl.idParam);
    FindLaw(rows, id);
    var i := FindIndex(rows, id);
    if i < |rows| {
      var start := RecFields(rows[i]);
      var mid := WithConsts(start, impl.setConst);
      WithConstsLaw(start, impl.setConst, 0);
      assert impl.setConst[0..] == impl.setConst;
      WithSetParamsLaw(mid, impl.setFromParams, params, 0);
      assert impl.setFromParams[0..] == impl.setFromParams;
      var rec := Updated(impl, rows[i], params);
      assert UpdatedRecord(impl, params, rows[i], rec.fields);
      hide UpdatedRecord;
      hide Updated;
      assert rows[i := rec] == rows[..i] + [rec] + rows[i + 1..];
      ReplacedLaw(a, e, rows[i := rec]);
    }
  }

  lemma DeletesLaw(cfg: Config, impl: Impl, params: seq<Value>, a: Store, c: map<string, nat>)
    requires impl.Delete?
    ensures Does(cfg, impl, params, a, c, RunImpl(cfg, impl, a, c, params))
  {
    hide FirstWith;
    hide NoneWith;
    hide FindIndex;
    hide Replaced;
    hide RowsAre;
    hide ParamIs;
    hide SetRows;
    var e := impl.entity;
    var rows, id := Rows(a, e), ParamAt(params, impl.idParam);
    RowsLaw(a, e);
    ParamLaw(params, impl.idParam);
    FindLaw(rows, id);
    var i := FindIndex(rows, id);
    if i < |rows| { ReplacedLaw(a, e, rows[..i] + rows[i + 1..]); }
  }

  lemma SendsLaw(cfg: Config, impl: Impl, params: seq<Value>, a: Store, c: map<string, nat>)
    requires impl.Send? || impl.Pay?
    ensures Does(cfg, impl, params, a, c, RunImpl(cfg, impl, a, c, params))
  {
    hide Overlaid;
    var start: map<string, Value> := if impl.Send? then map["channel" := Str(impl.channel)] else map[];
    var keys := if impl.Send? then impl.paramMap else impl.paramMap;
    MappedLaw(keys, params, 0, start);
    assert EntryOf(start, keys, params, Rec(Mapped(keys, params, 0, start)));
  }

  /** Every tool operation does what is said of it. */
  lemma EngineDoes(cfg: Config, impl: Impl, params: seq<Value>, a: Store, c: map<string, nat>)
    ensures Does(cfg, impl, params, a, c, RunImpl(cfg, impl, a, c, params))
  {
    match impl
    case ListAll(e) => RowsLaw(a, e);
    case Noop =>
    case NoopEmpty(_) =>
    case Foreign(_) =>
    case _ =>
      hide Does;
      hide RunImpl;
      if impl.ListBy? { ListsByLaw(cfg, impl, params, a, c); }
      else if impl.GetOne? || impl.NoopRecord? { FindsLaw(cfg, impl, params, a, c); }
      else if impl.Create? { CreatesLaw(cfg, impl, params, a, c); }
      else if impl.Update? { UpdatesLaw(cfg, impl, params, a, c); }
      else if impl.Delete? { DeletesLaw(cfg, impl, params, a, c); }
      else { SendsLaw(cfg, impl, params, a, c); }
  }

  // ---------------------------------------------------------------- what `rt.call` does

  /** A required argument is not passed. */
  predicate Missing(params: seq<ToolParam>, args: seq<Value>) {
    exists i :: 0 <= i < |params| && params[i].required && ParamIs(args, i, Undef)
  }

  /** An argument as the tool sees it: null when not passed, a record's id in an ID slot. */
  predicate Taken(p: ToolParam, arg: Value, v: Value) {
    if arg.Undef? then v == Nil
    else if p.isId && arg.Rec? && "id" in arg.fields then v == arg.fields["id"]
    else v == arg
  }

  predicate AllTaken(params: seq<ToolParam>, args: seq<Value>, out: seq<Value>) {
    |out| == |params| &&
    forall i | 0 <= i < |params| :: Taken(params[i], if i < |args| then args[i] else Undef, out[i])
  }

  lemma {:induction false} NarrowedTakes(params: seq<ToolParam>, args: seq<Value>, i: nat)
    requires i <= |params|
    ensures var r := Narrowed(params, args, i);
            if exists k :: i <= k < |params| && params[k].required && ParamIs(args, k, Undef)
            then r == Err(ToolErr("INVALID_ARGUMENT"))
            else r.Ok? && |r.value| == |params| - i &&
                 forall k | i <= k < |params| :: Taken(params[k], if k < |args| then args[k] else Undef, r.value[k - i])
    decreases |params| - i
  {
    if i < |params| {
      NarrowedTakes(params, args, i + 1);
      ParamLaw(args, i);
    }
  }

  lemma NarrowedLaw(params: seq<ToolParam>, args: seq<Value>)
    ensures var r := Narrowed(params, args, 0);
            if Missing(params, args) then r == Err(ToolErr("INVALID_ARGUMENT"))
            else r.Ok? && AllTaken(params, args, r.value)
  {
    hide Narrowed;
    hide Taken;
    hide ParamIs;
    NarrowedTakes(params, args, 0);
  }

  /** The injection names the tool by symbol or by name, and has not run out. */
  predicate Strikes(inj: Injection, sym: string, name: string) {
    inj.times != 0 && ((inj.tool != "" && inj.tool == sym) || (inj.name != "" && inj.name == name))
  }

  /** Injection `i` is the first that strikes. */
  predicate Struck(injs: seq<Injection>, sym: string, name: string, i: nat) {
    i < |injs| && Strikes(injs[i], sym, name) && forall j | 0 <= j < i :: !Strikes(injs[j], sym, name)
  }

  /** Injection `i` gives its code, counted down unless it never runs out. */
  predicate CountedDown(injs: seq<Injection>, i: nat, after: seq<Injection>, code: string) {
    i < |injs| && code == injs[i].code &&
    after == injs[i := if injs[i].times > 0 then injs[i].(times := injs[i].times - 1) else injs[i]]
  }

  /** The first injection that strikes is counted down and gives its code; without one nothing happens. */
  ghost predicate Injects(injs: seq<Injection>, sym: string, name: string, after: seq<Injection>, code: string) {
    if exists i: nat :: Struck(injs, sym, name, i)
    then exists i: nat :: Struck(injs, sym, name, i) && CountedDown(injs, i, after, code)
    else after == injs && code == ""
  }

  lemma {:induction false} FirstFires(injs: seq<Injection>, sym: string, name: string, i: nat)
    requires i < |injs| && Fires(injs[i], sym, name) && forall j | 0 <= j < i :: !Fires(injs[j], sym, name)
    ensures Inject(injs, sym, name) ==
            (injs[i := if injs[i].times > 0 then injs[i].(times := injs[i].times - 1) else injs[i]], injs[i].code)
    decreases injs
  {
    if i > 0 {
      FirstFires(injs[1..], sym, name, i - 1);
      var x := if injs[i].times > 0 then injs[i].(times := injs[i].times - 1) else injs[i];
      assert [injs[0]] + injs[1..][i - 1 := x] == injs[i := x];
    } else {
      var x := if injs[0].times > 0 then injs[0].(times := injs[0].times - 1) else injs[0];
      assert [x] + injs[1..] == injs[0 := x];
    }
  }

  lemma {:induction false} NoneFires(injs: seq<Injection>, sym: string, name: string)
    requires forall j | 0 <= j < |injs| :: !Fires(injs[j], sym, name)
    ensures Inject(injs, sym, name) == (injs, "")
    decreases injs
  {
    if injs != [] {
      assert forall j | 0 <= j < |injs[1..]| :: injs[1..][j] == injs[j + 1];
      NoneFires(injs[1..], sym, name);
      assert [injs[0]] + injs[1..] == injs;
    }
  }

  lemma InjectLaw(injs: seq<Injection>, sym: string, name: string)
    ensures var (after, code) := Inject(injs, sym, name); Injects(injs, sym, name, after, code)
  {
    hide Inject;
    if i: nat :| Struck(injs, sym, name, i) {
      assert forall j | 0 <= j < i :: !Strikes(injs[j], sym, name);
      FirstFires(injs, sym, name, i);
    } else {
      FirstStrike(injs, sym, name, |injs|);
      NoneFires(injs, sym, name);
    }
  }

  lemma {:induction false} FirstStrike(injs: seq<Injection>, sym: string, name: string, n: nat)
    requires n <= |injs| && !exists i: nat :: Struck(injs, sym, name, i)
    ensures forall j | 0 <= j < n :: !Strikes(injs[j], sym, name)
    decreases n
  {
    hide Strikes;
    if n > 0 {
      FirstStrike(injs, sym, name, n - 1);
      assert !Struck(injs, sym, name, n - 1);
    }
  }

  /** The entry the log gains: the tool, the arguments it saw, and how the call ended. */
  predicate Logs(w: World, w1: World, sym: string, name: string, params: seq<Value>, r: Result) {
    w1.calls == w.calls + [CallEntry(sym, name, params, r.Ok?, match r
                                     case Ok(_) => ""
                                     case Err(ToolErr(code)) => code
                                     case Err(Blocked(tool, _)) => tool
                                     case Err(JsErr(m)) => m)]
  }

  predicate Untouched(w: World, w1: World) {
    w1.store == w.store && w1.calls == w.calls && w1.counters == w.counters && w1.injections == w.injections
  }

  /** Past the gate: the call is logged, then an injected error or the tool's own answer. */
  ghost predicate Dispatches(cfg: Config, w: World, sym: string, tool: Tool, params: seq<Value>, w1: World, r: Result) {
    Logs(w, w1, sym, tool.name, params, r) &&
    exists code :: Injects(w.injections, sym, tool.name, w1.injections, code) &&
      if code != "" then r == Err(ToolErr(code)) && w1.store == w.store && w1.counters == w.counters
      else Does(cfg, tool.impl, params, w.store, w.counters, ImplOut(w1.store, w1.counters, r))
  }

  ghost predicate Calls(cfg: Config, w: World, sym: string, args: seq<Value>, w1: World, r: Result) {
    w1.ops == w.ops + 1 && w1.line == w.line &&
    if w.ops >= cfg.maxOps then Untouched(w, w1) && r == Err(ToolErr("RATE_LIMITED"))
    else if sym !in cfg.tools then Untouched(w, w1) && r == Err(ToolErr("NOT_FOUND"))
    else if Missing(cfg.tools[sym].params, args) then Untouched(w, w1) && r == Err(ToolErr("INVALID_ARGUMENT"))
    else exists params :: AllTaken(cfg.tools[sym].params, args, params) && Answers(cfg, w, sym, params, w1, r)
  }

  /** The gate stops an irreversible tool; any other is dispatched. */
  ghost predicate Answers(cfg: Config, w: World, sym: string, params: seq<Value>, w1: World, r: Result)
    requires sym in cfg.tools
  {
    if Irreversible in cfg.tools[sym].effects && !cfg.approval && !cfg.preview
    then Untouched(w, w1) && r == Err(Blocked(sym, params))
    else Dispatches(cfg, w, sym, cfg.tools[sym], params, w1, r)
  }

  lemma DispatchDoes(cfg: Config, w: World, sym: string, tool: Tool, params: seq<Value>)
    ensures var s := Dispatch(cfg, w, sym, tool, params); Dispatches(cfg, w, sym, tool, params, s.w, s.r)
  {
    hide Inject;
    hide RunImpl;
    hide Injects;
    hide Does;
    InjectLaw(w.injections, sym, tool.name);
    EngineDoes(cfg, tool.impl, params, w.store, w.counters);
  }

  /** `rt.call` does what is said of it. */
  lemma CallDoes(cfg: Config, w: World, sym: string, args: seq<Value>)
    ensures var s := RtCall(cfg, w, sym, args); Calls(cfg, w, sym, args, s.w, s.r)
  {
    hide Narrowed;
    hide Dispatch;
    hide Missing;
    hide AllTaken;
    hide Injects;
    hide Does;
    if sym in cfg.tools {
      var tool := cfg.tools[sym];
      NarrowedLaw(tool.params, args);
      if Narrowed(tool.params, args, 0).Ok? {
        var params := Narrowed(tool.params, args, 0).value;
        DispatchDoes(cfg, Tick(w), sym, tool, params);
        assert Dispatches(cfg, w, sym, tool, params, Dispatch(cfg, Tick(w), sym, tool, params).w,
                          Dispatch(cfg, Tick(w), sym, tool, params).r);
        DispatchKeeps(cfg, Tick(w), sym, tool, params);
      }
    }
  }

  lemma DispatchKeeps(cfg: Config, w: World, sym: string, tool: Tool, params: seq<Value>)
    ensures var s := Dispatch(cfg, w, sym, tool, params); s.w.ops == w.ops && s.w.line == w.line
  {
    hide Inject;
    hide RunImpl;
  }
}
